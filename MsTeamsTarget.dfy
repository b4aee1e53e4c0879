/**
 * The NLog target MsTeamsTarget: configured properties, the two layouts
 * resolved once at initialization, the lazily created message card, and the
 * render-and-send step shared by the synchronous and asynchronous entry points.
 *
 * The class is generic in NLog's layout type `L`, its log-event type `E` and
 * the message-card type `C`. The library calls it makes are supplied as
 * functions: `render` is `Layout.Render`, `cardMessage` is
 * `IMessageCard.CreateMessage`, and `loadCard` stands for loading a card type
 * by its assembly-qualified name and instantiating it.
 */
module Teams {
  import opened Optional
  import opened Resolution
  import opened Delivery

  /** `typeof(DefaultCard).FullName`, taken to be in namespace NLog.Targets.Teams (DefaultCard is not part of this model). */
  const DefaultCardImpl: string := "NLog.Targets.Teams.DefaultCard"

  /** `typeof(DefaultCard).Assembly.GetName().Name`, taken to be the library's own assembly. */
  const DefaultCardAssembly: string := "NLog.Targets.Teams"

  /** The token the pipeline hands to WriteAsyncTask. */
  datatype CancellationToken = CancellationToken(isCancellationRequested: bool)

  class MsTeamsTarget<L, E, C> {
    // configuration properties, set by NLog from the configuration file
    var url: string
    var cardImpl: string
    var cardAssembly: string
    var applicationName: string
    var environment: string
    var includeEventProperties: bool

    // state written by the target itself
    var applicationNameLayout: Option<L>
    var environmentLayout: Option<L>
    var messageCard: Option<C>
    /** How many times CreateMessageCard has run on this target. */
    ghost var cardsCreated: nat

    // the library calls the target makes
    const render: (L, E) -> string
    const cardMessage: (C, E, string, string) -> string
    const loadCard: string -> C

    /** A card has been created exactly when one is cached, and never more than one. */
    ghost predicate Valid()
      reads this
    {
      cardsCreated == if messageCard.Some? then 1 else 0
    }

    /** The target as NLog constructs it, with the required parameters filled in. */
    constructor (url: string, applicationName: string, environment: string,
                 render: (L, E) -> string, cardMessage: (C, E, string, string) -> string,
                 loadCard: string -> C)
      ensures Valid()
      ensures this.url == url && this.applicationName == applicationName && this.environment == environment
      ensures cardImpl == DefaultCardImpl && cardAssembly == DefaultCardAssembly
      ensures includeEventProperties
      ensures applicationNameLayout == None && environmentLayout == None && messageCard == None
      ensures this.render == render && this.cardMessage == cardMessage && this.loadCard == loadCard
    {
      this.url := url;
      this.applicationName := applicationName;
      this.environment := environment;
      this.render := render;
      this.cardMessage := cardMessage;
      this.loadCard := loadCard;
      cardImpl := DefaultCardImpl;
      cardAssembly := DefaultCardAssembly;
      includeEventProperties := true;
      applicationNameLayout := None;
      environmentLayout := None;
      messageCard := None;
      cardsCreated := 0;
    }

    /** The assembly-qualified type name CreateMessageCard loads. */
    function CardTypeName(): (name: string)
      reads this
      ensures |name| == |cardImpl| + 2 + |cardAssembly|
      ensures name[..|cardImpl|] == cardImpl
      ensures name[|cardImpl|..|cardImpl| + 2] == ", "
      ensures name[|cardImpl| + 2..] == cardAssembly
    {
      cardImpl + ", " + cardAssembly
    }

    /** The card the next message is built with: the cached one, or a newly loaded one. */
    ghost function NextCard(): C
      reads this
    {
      if messageCard.Some? then messageCard.value else loadCard(CardTypeName())
    }

    /** The application name handed to the card for event `e`. */
    function ApplicationNameFor(e: E): string
      reads this
    {
      RenderField(applicationName, applicationNameLayout, render, e)
    }

    /** The environment handed to the card for event `e`. */
    function EnvironmentFor(e: E): string
      reads this
    {
      RenderField(environment, environmentLayout, render, e)
    }

    /** The message CreateMessage produces for `e` in the current state. */
    ghost function MessageFor(e: E): string
      reads this
    {
      cardMessage(NextCard(), e, ApplicationNameFor(e), EnvironmentFor(e))
    }

    /** The request posted and the outcome of one render-and-send step for `e`. */
    ghost function Dispatch(e: E, response: HttpResponse): (Request, Outcome)
      reads this
    {
      (PostJson(url, MessageFor(e)), CheckResponse(response))
    }

    /** Resolves both configured fields against the variable table, independently of each other. */
    method ResolveVariables(variables: map<string, L>)
      requires Valid()
      modifies this`applicationNameLayout, this`environmentLayout
      ensures Valid()
      ensures applicationNameLayout == ResolveVar(applicationName, variables)
      ensures environmentLayout == ResolveVar(environment, variables)
    {
      applicationNameLayout := ResolveVar(applicationName, variables);
      environmentLayout := ResolveVar(environment, variables);
    }

    /**
     * The one place the variable table is read. The card is not created here;
     * the base class's initialization is not modelled.
     */
    method InitializeTarget(variables: map<string, L>)
      requires Valid()
      modifies this`applicationNameLayout, this`environmentLayout
      ensures Valid() && messageCard == old(messageCard)
      ensures applicationNameLayout == ResolveVar(applicationName, variables)
      ensures environmentLayout == ResolveVar(environment, variables)
    {
      ResolveVariables(variables);
    }

    /** Loads and instantiates the configured card type. */
    method CreateMessageCard() returns (card: C)
      requires Valid() && messageCard.None?
      modifies this`cardsCreated
      ensures card == loadCard(CardTypeName())
      ensures cardsCreated == old(cardsCreated) + 1
    {
      card := loadCard(CardTypeName());
      cardsCreated := cardsCreated + 1;
    }

    /** The lazy MessageCard getter: creates the card on first use and returns the cached one after. */
    method MessageCard() returns (card: C)
      requires Valid()
      modifies this`messageCard, this`cardsCreated
      ensures Valid() && cardsCreated == 1
      ensures card == old(NextCard()) && messageCard == Some(card)
      ensures old(messageCard).Some? ==> messageCard == old(messageCard) && cardsCreated == old(cardsCreated)
    {
      if messageCard.None? {
        var created := CreateMessageCard();
        messageCard := Some(created);
      }
      card := messageCard.value;
    }

    /**
     * Renders the two fields (the raw property, or its resolved layout's
     * rendering) and has the card build the message. The variable table is
     * not consulted, and the layouts are not touched.
     */
    method CreateMessage(e: E) returns (logMessage: string)
      requires Valid()
      modifies this`messageCard, this`cardsCreated
      ensures Valid() && cardsCreated == 1
      ensures logMessage == old(MessageFor(e))
      ensures messageCard == Some(old(NextCard()))
      ensures old(messageCard).Some? ==> messageCard == old(messageCard) && cardsCreated == old(cardsCreated)
    {
      var appname := applicationName;
      var env := environment;
      if applicationNameLayout.Some? {
        appname := render(applicationNameLayout.value, e);
      }
      if environmentLayout.Some? {
        env := render(environmentLayout.value, e);
      }
      var card := MessageCard();
      logMessage := cardMessage(card, e, appname, env);
    }

    /**
     * The routine both entry points share: build the message, post it as
     * JSON to the configured URL, and fail on a non-success response.
     */
    method CreateAndSendMessage(e: E, response: HttpResponse) returns (request: Request, outcome: Outcome)
      requires Valid()
      modifies this`messageCard, this`cardsCreated
      ensures Valid() && cardsCreated == 1
      ensures (request, outcome) == old(Dispatch(e, response))
      ensures messageCard == Some(old(NextCard()))
      ensures old(messageCard).Some? ==> messageCard == old(messageCard) && cardsCreated == old(cardsCreated)
    {
      var logMessage := CreateMessage(e);
      request := PostJson(url, logMessage);
      outcome := CheckResponse(response);
    }

    /** The synchronous entry point: blocks on the shared routine and rethrows its failure. */
    method Write(e: E, response: HttpResponse) returns (request: Request, outcome: Outcome)
      requires Valid()
      modifies this`messageCard, this`cardsCreated
      ensures Valid() && cardsCreated == 1
      ensures (request, outcome) == old(Dispatch(e, response))
      ensures messageCard == Some(old(NextCard()))
      ensures old(messageCard).Some? ==> messageCard == old(messageCard) && cardsCreated == old(cardsCreated)
    {
      request, outcome := CreateAndSendMessage(e, response);
    }

    /** The asynchronous entry point: awaits the shared routine; the token is never looked at. */
    method WriteAsyncTask(e: E, cancellationToken: CancellationToken, response: HttpResponse)
      returns (request: Request, outcome: Outcome)
      requires Valid()
      modifies this`messageCard, this`cardsCreated
      ensures Valid() && cardsCreated == 1
      ensures (request, outcome) == old(Dispatch(e, response))
      ensures messageCard == Some(old(NextCard()))
      ensures old(messageCard).Some? ==> messageCard == old(messageCard) && cardsCreated == old(cardsCreated)
    {
      request, outcome := CreateAndSendMessage(e, response);
    }
  }
}
