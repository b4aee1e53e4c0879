/**
 * MsTeamsTarget.ResolveVar and the field selection of CreateMessage.
 *
 * `L` is NLog's layout type and `E` its log-event type; both stay abstract,
 * and `render` stands for `Layout.Render(LogEventInfo)`. The variable table of
 * the logging configuration is a map from variable name to layout.
 */
module Resolution {
  import opened Optional
  import opened VarReference

  /**
   * ResolveVar: match the pattern, take capture group 1 as the key and look it
   * up. No match, or a key missing from the table, leaves the layout null.
   */
  function ResolveVar<L>(parameter: string, variables: map<string, L>): (r: Option<L>)
    ensures (forall i, j :: !MatchAt(parameter, i, j)) ==> r == None
    ensures forall i, j :: LeftmostGreedy(parameter, i, j) ==>
              var key := parameter[i + |Opening|..j];
              r == if key in variables then Some(variables[key]) else None
  {
    match CapturedKey(parameter)
    case None => None
    case Some(key) => if key in variables then Some(variables[key]) else None
  }

  /**
   * The value CreateMessage passes to the card for one configured field: the
   * raw property text, unless a layout was resolved for it, in which case that
   * layout's rendering of the event.
   */
  function RenderField<L, E>(raw: string, layout: Option<L>, render: (L, E) -> string, e: E): (r: string)
    ensures layout == None ==> r == raw
    ensures layout.Some? ==> r == render(layout.value, e)
  {
    if layout.Some? then render(layout.value, e) else raw
  }

  /**
   * A field with no `${var:...}` on a single line resolves to no layout and
   * renders as its raw text for every event.
   */
  lemma NoReferenceRendersRaw<L, E>(raw: string, variables: map<string, L>, render: (L, E) -> string)
    requires forall i, j :: !MatchAt(raw, i, j)
    ensures ResolveVar(raw, variables) == None
    ensures forall e :: RenderField(raw, ResolveVar(raw, variables), render, e) == raw
  {
  }

  /**
   * When the key of the match is in the table, the field renders exactly as
   * that variable's layout, whatever text surrounds the reference.
   */
  lemma PresentKeyRendersVariable<L, E>(raw: string, variables: map<string, L>, render: (L, E) -> string,
                                        i: nat, j: nat, e: E)
    requires LeftmostGreedy(raw, i, j)
    requires raw[i + |Opening|..j] in variables
    ensures ResolveVar(raw, variables) == Some(variables[raw[i + |Opening|..j]])
    ensures RenderField(raw, ResolveVar(raw, variables), render, e) == render(variables[raw[i + |Opening|..j]], e)
  {
  }

  /**
   * Prefix and suffix around the reference are dropped: two fields with the
   * same reference and different surrounding text render the same.
   */
  lemma SurroundingTextDropped<L, E>(prefix: string, key: string, suffix: string,
                                     variables: map<string, L>, render: (L, E) -> string, e: E)
    requires '$' !in prefix
    requires Newline !in key && Closing !in suffix[..LineEnd(suffix, 0)] && key in variables
    ensures RenderField(prefix + Opening + key + [Closing] + suffix,
                        ResolveVar(prefix + Opening + key + [Closing] + suffix, variables), render, e)
            == render(variables[key], e)
  {
    KeyOfReference(prefix, key, suffix);
  }

  /**
   * The configuration `applicationName = "${var:app}"`, `environment = "prod"`
   * with the table `{app: billing}` renders the application name as the
   * `billing` layout does and the environment as "prod".
   */
  lemma ConfigurationExample<L, E>(billing: L, render: (L, E) -> string, e: E)
    ensures RenderField("${var:app}", ResolveVar("${var:app}", map["app" := billing]), render, e) == render(billing, e)
    ensures RenderField("prod", ResolveVar("prod", map["app" := billing]), render, e) == "prod"
  {
    KeyOfReference("", "app", "");
    assert "" + Opening + "app" + [Closing] + "" == "${var:app}";
    assert forall i, j :: !MatchAt("prod", i, j);
  }

  /**
   * When the key of the match is not in the table, the layout stays null and
   * the field renders as the raw text, reference included.
   */
  lemma AbsentKeyRendersRaw<L, E>(raw: string, variables: map<string, L>, render: (L, E) -> string,
                                  i: nat, j: nat, e: E)
    requires LeftmostGreedy(raw, i, j)
    requires raw[i + |Opening|..j] !in variables
    ensures ResolveVar(raw, variables) == None
    ensures RenderField(raw, ResolveVar(raw, variables), render, e) == raw
    ensures raw[i..i + |Opening|] == Opening && raw[j] == Closing
  {
  }
}
