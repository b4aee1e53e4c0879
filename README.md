# MsTeamsTarget, modelled in Dafny

A model of `MsTeamsTarget`, the NLog target that posts log events to a
Microsoft Teams incoming webhook. The model covers four parts of the target:

- **Variable-reference resolution.** `ResolveVar` applies the .NET regular
  expression `\${var:(.*)}` to the `ApplicationName` and `Environment`
  properties and looks the captured name up in the configuration's variable
  table.
- **Field selection when a message is built.** `CreateMessage` passes each
  field to the card as the raw property text, or as the rendering of the
  layout resolved for it.
- **The lazily created message card.** It is created on first use and then
  cached.
- **The response-to-error policy.** `CreateAndSendMessage` sends the message,
  and both `Write` and `WriteAsyncTask` delegate to it.

How it is split into files:

- `VarReference.dfy` gives the regex semantics. The ghost predicate
  `MatchAt` says what a match of the pattern is. `LeftmostGreedy` picks out
  the one match a backtracking engine reports: the leftmost start, and at that
  start the longest capture, with `.` not matching `\n`. The functions
  `MatchFrom`, `FindFrom` and `CapturedKey` compute that match, and their
  contracts tie the result to the predicates.
- `Resolution.dfy` holds `ResolveVar` over a `map<string, L>` variable table,
  `RenderField` for the field selection, and lemmas for the three cases: no
  reference, a reference whose key is present, and one whose key is absent.
- `Delivery.dfy` holds the HTTP response record, `IsSuccessStatusCode` as the
  range 200..299, the failure message `"Rest Call Failed - " + ReasonPhrase`,
  and the request that `SendMessage` would post.
- `MsTeamsTarget.dfy` holds the class `Teams.MsTeamsTarget<L, E, C>`:
  - Its fields are the configuration properties, the two resolved layouts, the
    cached card and a ghost count of the cards created.
  - `Valid()` says that a card has been created exactly when one is cached, so
    at most one is ever created.
  - The stateful C# methods become methods of the class. `ResolveVar` reads
    the variable table through the base class's `LoggingConfiguration`; the
    model passes that table in as a parameter of `InitializeTarget`, so
    `ResolveVar` is the module-level function `Resolution.ResolveVar`.
    `SendMessage` has no method: the request it would post is the function
    `Delivery.PostJson`, and the HTTP response is an input of
    `CreateAndSendMessage`.
  - `CreateMessageCard` may only be called while no card is cached, which is
    how the getter calls it. So no verified caller can create a second card.
  - NLog's layout type, log-event type and card type are type parameters.
  - `Layout.Render`, `IMessageCard.CreateMessage` and the reflection-based
    card loading are functions handed to the constructor.

Three behaviours of the code that are easy to miss:

- **An unresolved reference does not render as empty.** When the captured
  name is missing from the table, the layout stays null and the field renders
  as the raw property text, `${var:...}` marker included.
- **Surrounding text is dropped.** When the name is present, the field
  renders as that layout alone. Any text around the marker in the property is
  lost.
- **Cancellation is not honoured.** `WriteAsyncTask` never reads its
  cancellation token. A cancelled dispatch still builds and posts the message.

## Model

| member | source | states |
|---|---|---|
| VarReference.MatchFrom | NLog.Targets.Teams/MsTeamsTarget.cs:118-120 | at a fixed start, the pattern matches iff `${var:` is there and a `}` follows on the same line; the reported end is the last such `}` (greedy `.*`, `.` excludes `\n`) |
| VarReference.FindFrom | NLog.Targets.Teams/MsTeamsTarget.cs:118-121 | the reported match is a match, none starts further left, none at its start ends further right; no result means no match anywhere at or after the start |
| VarReference.CapturedKey | NLog.Targets.Teams/MsTeamsTarget.cs:120-125 | `match.Success` is false exactly when no match exists; otherwise group 1 is the text between the leftmost-greedy match's `${var:` and its closing `}` |
| VarReference.KeyOfReference | NLog.Targets.Teams/MsTeamsTarget.cs:118-125 | for text without `$` before the marker, a key on one line, and no `}` after the closing brace before the next newline, the captured key is exactly that key |
| VarReference.TwoReferencesOneKey | NLog.Targets.Teams/MsTeamsTarget.cs:118-125 | `${var:a}-${var:b}` captures the key `a}-${var:b` (greedy, unanchored) |
| VarReference.LaterBraceOnLineExtendsKey | NLog.Targets.Teams/MsTeamsTarget.cs:118-125 | `x${var:a}y}` captures `a}y`: a later `}` on the same line moves the greedy end |
| VarReference.BraceOnNextLineIgnored | NLog.Targets.Teams/MsTeamsTarget.cs:118-125 | `${var:a}` followed by `\r\n}` captures `a`: `.` stops at the newline but not at the carriage return |
| Resolution.ResolveVar | NLog.Targets.Teams/MsTeamsTarget.cs:115-129 | no match gives a null layout; with a match, the layout is the table's entry for the captured key if present, and null if absent |
| Resolution.NoReferenceRendersRaw | NLog.Targets.Teams/MsTeamsTarget.cs:200-201 | a property with no `${var:`...`}` on one line resolves to no layout and renders as the raw string for every event |
| Resolution.PresentKeyRendersVariable | NLog.Targets.Teams/MsTeamsTarget.cs:203-206 | with the captured key in the table, the field renders exactly as that variable's layout renders the event |
| Resolution.SurroundingTextDropped | NLog.Targets.Teams/MsTeamsTarget.cs:118-126 | for a prefix without `$` and a suffix with no `}` before its first newline, the field is the variable's rendering alone |
| Resolution.AbsentKeyRendersRaw | NLog.Targets.Teams/MsTeamsTarget.cs:126 | with the captured key absent, the layout stays null and the field renders as the raw string, marker included |
| Resolution.ConfigurationExample | NLog.Targets.Teams/MsTeamsTarget.cs:198-210 | `${var:app}` with table `{app: billing}` renders as `billing` does; the literal `prod` renders as itself |
| Resolution.RenderField | NLog.Targets.Teams/MsTeamsTarget.cs:200-210 | without a layout the field is the raw property text; with one, it is that layout's rendering of the event |
| Delivery.IsSuccessStatusCode | NLog.Targets.Teams/MsTeamsTarget.cs:171 | success means the status code is in the 2xx class |
| Delivery.ReasonText | NLog.Targets.Teams/MsTeamsTarget.cs:173 | a reason phrase is interpolated verbatim; the text is empty exactly when the phrase is null or empty |
| Delivery.CheckResponse | NLog.Targets.Teams/MsTeamsTarget.cs:171-174 | fails exactly when the status is outside 200..299, with message `"Rest Call Failed - "` + reason phrase (null reason as empty); completes otherwise |
| Delivery.FailureMessageCarriesReason | NLog.Targets.Teams/MsTeamsTarget.cs:173 | the reason phrase is recoverable from the failure message; two failures are equal exactly when their reasons are |
| Delivery.ServerErrorExample | NLog.Targets.Teams/MsTeamsTarget.cs:167-175 | 500 "Server Error" fails with `Rest Call Failed - Server Error`; 200 completes |
| Delivery.PostJson | NLog.Targets.Teams/MsTeamsTarget.cs:181-191 | the POST goes to the configured URL, with content type `application/json` and the message as body |
| Teams.MsTeamsTarget.CardTypeName | NLog.Targets.Teams/MsTeamsTarget.cs:87 | the type name is `CardImpl`, then `", "`, then `CardAssembly` |
| Teams.MsTeamsTarget.constructor | NLog.Targets.Teams/MsTeamsTarget.cs:96-99 | event properties are included by default; the card type defaults to DefaultCard; there are no layouts and no card yet |
| Teams.MsTeamsTarget.ResolveVariables | NLog.Targets.Teams/MsTeamsTarget.cs:134-138 | each layout is `ResolveVar` of its own property against the table; nothing else changes |
| Teams.MsTeamsTarget.InitializeTarget | NLog.Targets.Teams/MsTeamsTarget.cs:104-108 | resolves both layouts, the only read of the variable table, and does not create the card |
| Teams.MsTeamsTarget.CreateMessageCard | NLog.Targets.Teams/MsTeamsTarget.cs:85-91 | callable only while no card is cached (as from the getter); loads the card named `CardImpl + ", " + CardAssembly` and counts one creation |
| Teams.MsTeamsTarget.MessageCard | NLog.Targets.Teams/MsTeamsTarget.cs:68-79 | returns the cached card if there is one, without creating another; otherwise creates it once and caches it; at most one card is ever created |
| Teams.MsTeamsTarget.CreateMessage | NLog.Targets.Teams/MsTeamsTarget.cs:198-214 | the message is the card's rendering of the event with each field raw or rendered from its frozen layout; neither the table nor the layouts are touched; the card is created at most once |
| Teams.MsTeamsTarget.CreateAndSendMessage | NLog.Targets.Teams/MsTeamsTarget.cs:167-175 | posts that message as JSON to the URL, and fails exactly when the response is not a success status; afterwards the card used is the cached one, so every later call reuses it |
| Teams.MsTeamsTarget.Write | NLog.Targets.Teams/MsTeamsTarget.cs:156-159 | the same request, outcome and cached card as the shared routine |
| Teams.MsTeamsTarget.WriteAsyncTask | NLog.Targets.Teams/MsTeamsTarget.cs:146-149 | the same request, outcome and cached card as the shared routine, whatever the cancellation token says |

## Left out

- The HTTP POST itself, in `SendMessage`, is transport I/O. The response is an input of `CreateAndSendMessage`. Transport exceptions are not modelled, and neither is a URL that fails to parse as a `Uri`.
- Card loading by reflection, through `Type.GetType` and `Activator.CreateInstance`, is the abstract function `loadCard`. The model does not cover a type that fails to load. It also does not cover a type that is not an `IMessageCard`: in C# the cast gives null, so the getter would try again on the next call.
- The `DefaultCard` type is not part of this model. Its full name and assembly name are taken to be `NLog.Targets.Teams.DefaultCard` and `NLog.Targets.Teams`.
- NLog's `Layout.Render`, `IMessageCard.CreateMessage` and the card's JSON payload are kept uninterpreted. So are `base.InitializeTarget` and the effect of `IncludeEventProperties`.
- The variable table is an exact-key `map`. Any key comparison rule of NLog's own table is not modelled.
- Null property values, for which `Regex.Match` would throw, are not modelled. The required parameters are constructor arguments.
- Async scheduling, concurrent dispatch and cancellation are not modelled. The code never reads the token.
- `NLog.Targets.Teams.Test.App/Runner.cs` is demo wiring that only calls logger methods.
- `Resolution.SurroundingTextDropped` and `VarReference.KeyOfReference` assume no `$` before the marker, as a simple condition for "this marker is the leftmost match". They also assume no `}` in the suffix before its first newline, because such a brace moves the greedy end: `x${var:a}y}` captures `a}y`. `Resolution.PresentKeyRendersVariable` states the general case.
