/** The completion extractor both handlers share: decide from the model's
    reply whether the interview finished, pull out the JSON block the model
    was told to append after the `[FINALIZADO]` marker, and clean the reply
    before it goes back to the user. `JSON.parse` is a parameter `parse`,
    returning the four fields the handlers read, or `None` when it throws. */
module Completion {
  import opened Wrappers
  import opened Text

  /** The marker the system prompt asks the model to emit before the JSON. */
  const Sentinel: string := "[FINALIZADO]"

  /** Sent instead of a cleaned reply that came out empty. */
  const ThankYou: string := "Obrigado! Recebi todos os seus dados. Nossa equipe entrará em contato em breve."

  /** The fields of the parsed JSON that the handlers copy into the lead. */
  datatype LeadFields = LeadFields(
    nomeAdvogado: string,
    nomeEscritorio: string,
    especialidades: string,
    diferencial: string)

  /** The extraction is attempted when the reply has the marker or any `{`. */
  predicate Triggered(reply: string) {
    Contains(reply, Sentinel) || '{' in reply
  }

  /** The index of the first `c` in `s`. */
  function FirstOf(s: string, c: char): (r: Option<nat>)
    ensures r.Some? ==> r.value < |s| && s[r.value] == c
    ensures forall k :: 0 <= k < |s| && (r.None? || k < r.value) ==> s[k] != c
  {
    if s == [] then None
    else if s[0] == c then Some(0)
    else match FirstOf(s[1..], c)
      case None => None
      case Some(i) => Some(i + 1)
  }

  /** The index of the last `c` in `s`. */
  function LastOf(s: string, c: char): (r: Option<nat>)
    ensures r.Some? ==> r.value < |s| && s[r.value] == c
    ensures forall k :: 0 <= k < |s| && (r.None? || r.value < k) ==> s[k] != c
  {
    if s == [] then None
    else if s[|s| - 1] == c then Some(|s| - 1)
    else LastOf(s[..|s| - 1], c)
  }

  /** A half-open range `[start, end)` of the reply. */
  datatype Span = Span(start: nat, end: nat)

  /** Where the regular expression `/\{[\s\S]*\}/` matches: it succeeds
      exactly when some `{` comes before some `}`, and then, being leftmost
      and greedy, runs from the first `{` to the last `}`. */
  function GreedyMatch(s: string): (r: Option<Span>)
    ensures r.Some? ==>
              && r.value.start < r.value.end <= |s|
              && s[r.value.start] == '{' && s[r.value.end - 1] == '}'
              && (forall k :: 0 <= k < r.value.start ==> s[k] != '{')
              && (forall k :: r.value.end <= k < |s| ==> s[k] != '}')
    ensures r.None? <==> forall a, b :: 0 <= a < b < |s| ==> !(s[a] == '{' && s[b] == '}')
  {
    match (FirstOf(s, '{'), LastOf(s, '}'))
    case (Some(i), Some(j)) => if i < j then Some(Span(i, j + 1)) else None
    case _ => None
  }

  /** `jsonMatch[0]`, the matched text. */
  function JsonMatch(s: string): (r: Option<string>)
    ensures r.None? <==> GreedyMatch(s).None?
    ensures r.Some? ==> |r.value| >= 2 && r.value[0] == '{' && r.value[|r.value| - 1] == '}'
  {
    match GreedyMatch(s)
    case None => None
    case Some(sp) => Some(s[sp.start..sp.end])
  }

  /** The reply shown to the user once the JSON parsed: the matched text
      removed, then the first marker removed, then trimmed, with the
      thank-you message when nothing is left. */
  function Clean(reply: string, json: string): (r: string)
    ensures r != [] && (r == ThankYou || Trim(r) == r)
  {
    var u := ReplaceFirst(ReplaceFirst(reply, json, ""), Sentinel, "");
    TrimIdempotent(u);
    var t := Trim(u);
    if t == "" then ThankYou else t
  }

  /** What the turn does to the lead row of the conversation. */
  datatype LeadEffect =
    | Complete(fields: LeadFields)  // full upsert, status "Briefing Concluído"
    | OpenIfAbsent                  // insert with status "Em Aberto", ignoring duplicates
    | Untouched                     // the JSON did not match or did not parse

  /** The effect on the lead and the `responseText` left for dispatch. */
  datatype Decision = Decision(effect: LeadEffect, responseText: string)

  /** The `if (...includes("[FINALIZADO]") || ...includes("{"))` block. */
  function Decide(reply: string, parse: string -> Option<LeadFields>): (d: Decision)
    ensures d.effect.OpenIfAbsent? <==> !Triggered(reply)
    ensures !d.effect.Complete? ==> d.responseText == reply
    ensures d.effect.Complete? ==>
              d.responseText != [] && (d.responseText == ThankYou || Trim(d.responseText) == d.responseText)
  {
    if Triggered(reply) then
      match JsonMatch(reply)
      case None => Decision(Untouched, reply)
      case Some(json) =>
        match parse(json)
        case None => Decision(Untouched, reply)
        case Some(fields) => Decision(Complete(fields), Clean(reply, json))
    else
      Decision(OpenIfAbsent, reply)
  }

  /** The matched text occurs first where the match starts, since no `{`
      comes before it; so `replace(jsonString, "")` cuts out exactly the
      matched range. */
  lemma RemoveMatch(s: string)
    requires GreedyMatch(s).Some?
    ensures var sp := GreedyMatch(s).value;
            ReplaceFirst(s, s[sp.start..sp.end], "") == s[..sp.start] + s[sp.end..]
  {
    var sp := GreedyMatch(s).value;
    var json := s[sp.start..sp.end];
    forall j: nat | j < sp.start
      ensures !OccursAt(s, json, j)
    {
      assert s[j] != '{' && json[0] == '{';
    }
    ReplaceAtFirst(s, json, "", sp.start);
  }

  /** A reply that is completed: the lead gets the parsed fields, and the
      user sees the reply with the matched range cut out, the first marker
      removed and the rest trimmed, or the thank-you message if that is
      empty. */
  lemma DecideCompleted(reply: string, parse: string -> Option<LeadFields>, fields: LeadFields)
    requires Triggered(reply) && GreedyMatch(reply).Some?
    requires parse(JsonMatch(reply).value) == Some(fields)
    ensures var sp := GreedyMatch(reply).value;
            var t := Trim(ReplaceFirst(reply[..sp.start] + reply[sp.end..], Sentinel, ""));
            Decide(reply, parse) == Decision(Complete(fields), if t == "" then ThankYou else t)
  {
    RemoveMatch(reply);
  }

  /** A triggered reply whose JSON does not match or does not parse is passed
      on unchanged and the lead is not touched. */
  lemma DecideParseFailure(reply: string, parse: string -> Option<LeadFields>)
    requires Triggered(reply)
    requires JsonMatch(reply).None? || parse(JsonMatch(reply).value).None?
    ensures Decide(reply, parse) == Decision(Untouched, reply)
  {
  }

  /** A reply with neither the marker nor a `{` is passed on unchanged and
      only asks for an insert-if-absent of an open lead. */
  lemma DecideUntriggered(reply: string, parse: string -> Option<LeadFields>)
    requires !Triggered(reply)
    ensures Decide(reply, parse) == Decision(OpenIfAbsent, reply)
  {
  }

  /** A reply that does not trigger the extraction has no `{`, so the
      regular expression cannot match it. */
  lemma UntriggeredHasNoMatch(reply: string)
    requires !Triggered(reply)
    ensures JsonMatch(reply).None?
  {
  }

  /** The match is pinned down by its four defining facts. */
  lemma GreedyMatchIs(s: string, sp: Span)
    requires sp.start < sp.end <= |s|
    requires s[sp.start] == '{' && s[sp.end - 1] == '}'
    requires forall k :: 0 <= k < sp.start ==> s[k] != '{'
    requires forall k :: sp.end <= k < |s| ==> s[k] != '}'
    ensures GreedyMatch(s) == Some(sp)
  {
  }

  /** The worked example below, step one: the match is the JSON block and
      cutting it out leaves the greeting and the marker. */
  lemma ExampleMatch(pre: string, json: string)
    requires pre == "Hello\n[FINALIZADO]\n" && json == "{\"a\":1}"
    ensures JsonMatch(pre + json) == Some(json)
    ensures ReplaceFirst(pre + json, json, "") == pre
  {
    var reply := pre + json;
    assert '{' !in pre;
    GreedyMatchIs(reply, Span(|pre|, |reply|));
    assert reply[|pre|..|reply|] == json;
    RemoveMatch(reply);
    assert reply[..|pre|] + reply[|reply|..] == pre;
  }

  /** Step two: removing the marker leaves the greeting and two newlines. */
  lemma ExampleMarker(pre: string)
    requires pre == "Hello\n[FINALIZADO]\n"
    ensures ReplaceFirst(pre, Sentinel, "") == "Hello\n\n"
  {
    assert OccursAt(pre, Sentinel, 6);
    forall j: nat | j < 6
      ensures !OccursAt(pre, Sentinel, j)
    {
      assert pre[j] != '[' && Sentinel[0] == '[';
    }
    ReplaceAtFirst(pre, Sentinel, "", 6);
  }

  /** Step three: trimming drops the newlines. */
  lemma ExampleTrim(cut: string)
    requires cut == "Hello\n\n"
    ensures Trim(cut) == "Hello"
  {
    TrimStartNoSpace(cut);
    assert IsSpace(cut[5]) && IsSpace(cut[6]) && !IsSpace(cut[4]);
  }

  /** A worked example: the marker and the JSON after a greeting leave just
      the greeting. */
  lemma ExampleCompleted(reply: string, parse: string -> Option<LeadFields>, fields: LeadFields)
    requires reply == "Hello\n[FINALIZADO]\n" + "{\"a\":1}"
    requires parse("{\"a\":1}") == Some(fields)
    ensures Decide(reply, parse) == Decision(Complete(fields), "Hello")
  {
    var pre, json := "Hello\n[FINALIZADO]\n", "{\"a\":1}";
    ExampleMatch(pre, json);
    ExampleMarker(pre);
    ExampleTrim("Hello\n\n");
    assert Clean(reply, json) == "Hello";
    assert Triggered(reply) by {
      assert reply[|pre|] == '{';
    }
  }
}
