/**
From the printed block to the packets: the parsed rule as the matcher sees it, and what it means
that the matcher accepts a rule of the table.
*/
module FlowRules {
  import opened Wrappers
  import FlowMatch
  import FlowParse

  /** Different fields of a parsed rule are different fields for the matcher. */
  ghost predicate Injective(nameOf: string -> FlowMatch.FieldName) {
    forall a, b :: nameOf(a) == nameOf(b) ==> a == b
  }

  function Relabelled(head: Option<FlowParse.Labelled>): Option<FlowMatch.Labelled> {
    if head.None? then None else Some(FlowMatch.Labelled(head.value.caption, head.value.value))
  }

  ghost function AsMatched(r: FlowParse.Rule, nameOf: string -> FlowMatch.FieldName): FlowMatch.Rule
    requires Injective(nameOf)
  {
    var d := r.details;
    FlowMatch.Rule(
      Relabelled(d.flowType), Relabelled(d.action),
      map key | key in d.fields ::
        nameOf(key) := FlowMatch.Field(d.fields[key].caption, d.fields[key].value, d.fields[key].mask),
      r.isPartial, d.unparsed != [] || d.missing != [] || d.duplicates != [])
  }

  /** The line is one of the two heads or a field of the rule, and nothing else. */
  ghost predicate AccountedFor(r: FlowParse.Rule, raw: string, env: FlowParse.Env) {
    match env.lex(raw)
    case Blank => true
    case NoCaption => false
    case FlowTypeLine(head) => r.details.flowType == Some(head)
    case ActionLine(head) => r.details.action == Some(head)
    case FieldLine(name, _, _, field) =>
      || (name in r.details.fields && r.details.fields[name] == field)
      || (FlowParse.DST_MAC_EXT in r.details.fields && r.details.fields[FlowParse.DST_MAC_EXT] == field)
  }

  lemma CompleteAccounts(r: FlowParse.Rule, lines: seq<string>, env: FlowParse.Env)
    requires FlowParse.Evidences(r, lines, env) && !r.isPartial
    ensures forall i :: 0 <= i < |lines| ==> AccountedFor(r, lines[i], env)
    ensures FlowParse.NonBlank(lines, env) == 2 + |r.details.fields|
  {
    forall i | 0 <= i < |lines|
      ensures AccountedFor(r, lines[i], env)
    {
      assert FlowParse.Represented(r.details, lines[i], env);
    }
  }

  /** A rule parsed from a block and accepted by the matcher accounts for exactly the lines of the
      block, one place for each, and selects exactly the packets of the configuration. */
  lemma AcceptedAccountsForItsBlock(r: FlowParse.Rule, lines: seq<string>, parsing: FlowParse.Env,
                                    nameOf: string -> FlowMatch.FieldName, actual: FlowMatch.Rule,
                                    configured: FlowMatch.Config, matching: FlowMatch.Env, p: FlowMatch.Packet)
    requires FlowParse.Evidences(r, lines, parsing) && Injective(nameOf) && actual == AsMatched(r, nameOf)
    requires FlowMatch.Library(matching) && FlowMatch.MatchesConfig(actual, configured, matching)
    ensures forall i :: 0 <= i < |lines| ==> AccountedFor(r, lines[i], parsing)
    ensures FlowParse.NonBlank(lines, parsing) == 2 + |r.details.fields|
    ensures FlowMatch.ReadBackSelects(actual, p, matching) <==> FlowMatch.ConfiguredSelects(configured, p, matching)
  {
    FlowMatch.AcceptedSelectsTheSame(actual, configured, p, matching);
    CompleteAccounts(r, lines, parsing);
  }
}
