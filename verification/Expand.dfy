/** Expanding environment placeholders in a configuration scalar (internal/config/expand.go). */
module Expand {
  import opened Base

  /** A template is literal text and placeholders. */
  datatype Segment = Literal(text: string) | Placeholder(name: string)

  datatype Outcome = Expanded(text: string) | Malformed | Unset(name: string)

  const OPENER := "${"

  predicate OpensAt(s: string, i: nat) {
    i + 1 < |s| && s[i] == '$' && s[i + 1] == '{'
  }

  /** Whether a character may stand in a name; digits may not come first. */
  predicate NameCharacter(c: char, first: bool) {
    c == '_' || 'a' <= c <= 'z' || 'A' <= c <= 'Z' || (!first && '0' <= c <= '9')
  }

  predicate ValidName(name: string) {
    name != "" && forall i | 0 <= i < |name| :: NameCharacter(name[i], i == 0)
  }

  method ValidEnvironmentName(name: string) returns (valid: bool)
    ensures valid <==> ValidName(name)
  {
    if name == "" { return false; }
    for index := 0 to |name|
      invariant forall i | 0 <= i < index :: NameCharacter(name[i], i == 0)
    {
      var character := name[index];
      if character == '_' || 'a' <= character <= 'z' || 'A' <= character <= 'Z' { continue; }
      if index > 0 && '0' <= character <= '9' { continue; }
      return false;
    }
    return true;
  }

  /** Where the first opener is, or the length when there is none. */
  function Opener(s: string): (start: nat)
    ensures start <= |s| && (start < |s| ==> OpensAt(s, start))
    ensures forall i: nat | i < start :: !OpensAt(s, i)
  {
    if s == "" then 0
    else if OpensAt(s, 0) then 0
    else
      assert forall i: nat | i > 0 && OpensAt(s, i) :: OpensAt(s[1..], i - 1);
      1 + Opener(s[1..])
  }

  /** Where the first closing brace is, or the length when there is none. */
  function Closer(s: string): (end: nat)
    ensures end <= |s| && (end < |s| ==> s[end] == '}') && forall i | 0 <= i < end :: s[i] != '}'
  {
    if s == "" || s[0] == '}' then 0 else 1 + Closer(s[1..])
  }

  // ---------- Templates ----------

  function Form(segment: Segment): string {
    match segment
    case Literal(text) => text
    case Placeholder(name) => OPENER + name + "}"
  }

  function Print(segments: seq<Segment>): string {
    if segments == [] then "" else Form(segments[0]) + Print(segments[1..])
  }

  /** Literals are not empty, hold no opener and stand apart; names are valid. */
  ghost predicate Proper(segments: seq<Segment>) {
    segments == [] ||
    (&& Proper(segments[1..])
     && match segments[0]
        case Literal(text) =>
          text != "" && (forall i: nat :: !OpensAt(text, i)) && (|segments| > 1 ==> segments[1].Placeholder?)
        case Placeholder(name) => ValidName(name))
  }

  predicate AllSet(segments: seq<Segment>, env: map<string, string>) {
    forall segment | segment in segments :: IsSet(segment, env)
  }

  predicate IsSet(segment: Segment, env: map<string, string>) {
    segment.Placeholder? ==> segment.name in env
  }

  function Content(segment: Segment, env: map<string, string>): string
    requires IsSet(segment, env)
  {
    match segment
    case Literal(text) => text
    case Placeholder(name) => env[name]
  }

  /** Every placeholder replaced by its value, and nothing else. */
  function Substitute(segments: seq<Segment>, env: map<string, string>): string
    requires AllSet(segments, env)
  {
    if segments == [] then ""
    else
      assert IsSet(segments[0], env);
      Content(segments[0], env) + Substitute(segments[1..], env)
  }

  // ---------- Expansion ----------

  /** What is wrong with a placeholder, given what follows its opener. */
  function Fault(rest: string, env: map<string, string>): (fault: Outcome)
    ensures fault.Expanded? <==> Closer(rest) < |rest| && ValidName(rest[..Closer(rest)]) && rest[..Closer(rest)] in env
  {
    if Closer(rest) == |rest| then Malformed
    else if !ValidName(rest[..Closer(rest)]) then Malformed
    else if rest[..Closer(rest)] !in env then Unset(rest[..Closer(rest)])
    else Expanded("")
  }

  function After(done: string, outcome: Outcome): Outcome {
    if outcome.Expanded? then Expanded(done + outcome.text) else outcome
  }

  /** One pass from left to right, which stops at the first fault. */
  function Expand(value: string, env: map<string, string>): Outcome
    decreases |value|
  {
    var start := Opener(value);
    if start == |value| then Expanded(value)
    else
      var rest := value[start + 2..];
      if !Fault(rest, env).Expanded? then Fault(rest, env)
      else
        After(value[..start] + env[rest[..Closer(rest)]], Expand(rest[Closer(rest) + 1..], env))
  }

  method ExpandString(value: string, env: map<string, string>) returns (outcome: Outcome)
    ensures outcome == Expand(value, env)
  {
    AfterNothing(Expand(value, env));
    ExpandEnd(env);
    hide Expand, After, Fault, Opener, Closer, ValidName;
    var builder, rest := "", value;
    while |rest| > 0
      invariant Expand(value, env) == After(builder, Expand(rest, env))
      decreases |rest|
    {
      ExpandUnfold(rest, env);
      var start := Opener(rest);
      if start == |rest| {
        AfterText(builder, rest);
        return Expanded(builder + rest);
      }
      var tail := rest[start + 2..];
      var end := Closer(tail);
      AfterFault(builder, Fault(tail, env));
      if end == |tail| { return Malformed; }
      var name := tail[..end];
      var valid := ValidEnvironmentName(name);
      if !valid { return Malformed; }
      if name !in env { return Unset(name); }
      AfterTwice(builder, rest[..start] + env[name], Expand(tail[end + 1..], env));
      assert builder + (rest[..start] + env[name]) == builder + rest[..start] + env[name];
      builder := builder + rest[..start] + env[name];
      rest := tail[end + 1..];
    }
    AfterText(builder, "");
    assert builder + "" == builder;
    return Expanded(builder);
  }

  lemma AfterNothing(outcome: Outcome)
    ensures After("", outcome) == outcome
  {
    if outcome.Expanded? { assert "" + outcome.text == outcome.text; }
  }

  lemma AfterText(done: string, text: string)
    ensures After(done, Expanded(text)) == Expanded(done + text)
  {
  }

  lemma AfterFault(done: string, fault: Outcome)
    ensures !fault.Expanded? ==> After(done, fault) == fault
  {
  }

  lemma ExpandEnd(env: map<string, string>)
    ensures Expand("", env) == Expanded("")
  {
  }

  /** One round of the loop. */
  lemma ExpandUnfold(value: string, env: map<string, string>)
    ensures var start := Opener(value);
      if start == |value| then Expand(value, env) == Expanded(value)
      else
        var tail := value[start + 2..];
        var end := Closer(tail);
        if end == |tail| || !ValidName(tail[..end]) then Expand(value, env) == Fault(tail, env) == Malformed
        else if tail[..end] !in env then Expand(value, env) == Fault(tail, env) == Unset(tail[..end])
        else Expand(value, env) == After(value[..start] + env[tail[..end]], Expand(tail[end + 1..], env))
  {
    hide Opener, Closer, ValidName, After;
  }

  lemma AfterTwice(a: string, b: string, outcome: Outcome)
    ensures After(a, After(b, outcome)) == After(a + b, outcome)
  {
    if outcome.Expanded? { assert a + (b + outcome.text) == a + b + outcome.text; }
  }

  /** A literal in front of nothing or of an opener is passed over. */
  lemma ExpandLiteral(text: string, tail: string, env: map<string, string>)
    requires (forall i: nat :: !OpensAt(text, i)) && (tail == "" || OpensAt(tail, 0))
    ensures Expand(text + tail, env) == After(text, Expand(tail, env))
  {
    var value := text + tail;
    assert Opener(value) == |text| by {
      assert forall i: nat | i + 1 < |text| :: OpensAt(value, i) == OpensAt(text, i);
      assert tail != "" ==> OpensAt(value, |text|);
      assert text != "" && tail != "" ==> !OpensAt(value, |text| - 1);
    }
    assert value[..|text|] == text;
    if tail == "" {
      assert value == text;
    } else {
      assert Opener(tail) == 0 && tail[..0] == "";
      assert value[|text| + 2..] == tail[2..];
      var rest := tail[2..];
      if Fault(rest, env).Expanded? {
        var v := env[rest[..Closer(rest)]];
        AfterTwice(text, "" + v, Expand(rest[Closer(rest) + 1..], env));
        assert "" + v == v;
      }
    }
  }

  lemma CloserOf(name: string, tail: string)
    requires ValidName(name)
    ensures Closer(name + "}" + tail) == |name|
  {
    var s := name + "}" + tail;
    assert s[|name|] == '}';
    assert forall i | 0 <= i < |name| :: s[i] == name[i] && NameCharacter(name[i], i == 0);
  }

  /** A well-formed placeholder of a set name is replaced, and its value is not looked at again. */
  lemma ExpandPlaceholder(name: string, tail: string, env: map<string, string>)
    requires ValidName(name) && name in env
    ensures Expand(OPENER + name + "}" + tail, env) == After(env[name], Expand(tail, env))
  {
    var value := OPENER + name + "}" + tail;
    var rest := name + "}" + tail;
    assert OpensAt(value, 0) && Opener(value) == 0 && value[2..] == rest;
    CloserOf(name, tail);
    assert rest[..|name|] == name && rest[|name| + 1..] == tail;
    assert value[..0] + env[name] == env[name];
  }

  lemma PrintOpens(segments: seq<Segment>, tail: string)
    requires Proper(segments) && (segments != [] ==> segments[0].Placeholder?) && (tail == "" || OpensAt(tail, 0))
    ensures Print(segments) + tail == "" || OpensAt(Print(segments) + tail, 0)
  {
  }

  lemma Regroup(a: string, b: string, c: string)
    ensures a + b + c == a + (b + c)
  {
  }

  /** One segment in front of what expands to nothing or opens a placeholder. */
  lemma ExpandSegment(segment: Segment, next: string, env: map<string, string>)
    requires Proper([segment]) && IsSet(segment, env)
    requires segment.Literal? ==> next == "" || OpensAt(next, 0)
    ensures Expand(Form(segment) + next, env) == After(Content(segment, env), Expand(next, env))
  {
    assert [segment][0] == segment;
    match segment {
      case Literal(text) => ExpandLiteral(text, next, env);
      case Placeholder(name) => ExpandPlaceholder(name, next, env);
    }
  }

  lemma ProperTail(segments: seq<Segment>)
    requires segments != [] && Proper(segments)
    ensures Proper([segments[0]]) && Proper(segments[1..])
    ensures segments[0].Literal? && |segments| > 1 ==> segments[1].Placeholder?
  {
    assert [segments[0]][1..] == [];
  }

  /** The printed form of a template in front of nothing or of another opener. */
  lemma {:induction false} ExpandPrinted(segments: seq<Segment>, tail: string, env: map<string, string>)
    requires Proper(segments) && AllSet(segments, env) && (tail == "" || OpensAt(tail, 0))
    ensures Expand(Print(segments) + tail, env) == After(Substitute(segments, env), Expand(tail, env))
  {
    hide Expand, After, OpensAt, Form, Content, IsSet;
    if segments == [] {
      assert Print(segments) + tail == tail;
      AfterNothing(Expand(tail, env));
    } else {
      var first, more := segments[0], segments[1..];
      ProperTail(segments);
      hide Proper;
      ExpandPrinted(more, tail, env);
      if first.Literal? { PrintOpens(more, tail); }
      ExpandSegment(first, Print(more) + tail, env);
      Regroup(Form(first), Print(more), tail);
      AfterTwice(Content(first, env), Substitute(more, env), Expand(tail, env));
    }
  }

  /** What one pass found: a template whose names are set, and then nothing, or an opener and a fault. */
  ghost predicate Found(value: string, env: map<string, string>, segments: seq<Segment>, rest: Option<string>) {
    && Proper(segments) && AllSet(segments, env)
    && value == Print(segments) + (if rest.None? then "" else OPENER + rest.value)
    && (rest.Some? ==> !Fault(rest.value, env).Expanded?)
  }

  lemma FoundOutcome(value: string, env: map<string, string>, segments: seq<Segment>, rest: Option<string>)
    requires Found(value, env, segments, rest)
    ensures Expand(value, env) == if rest.None? then Expanded(Substitute(segments, env)) else Fault(rest.value, env)
  {
    if rest.None? {
      ExpandPrinted(segments, "", env);
    } else {
      var tail := OPENER + rest.value;
      ExpandPrinted(segments, tail, env);
      assert Opener(tail) == 0 && tail[2..] == rest.value;
    }
  }

  function Text(literal: string): seq<Segment> {
    if literal == "" then [] else [Literal(literal)]
  }

  lemma CutAt(value: string, start: nat, mark: string)
    requires start + |mark| <= |value| && value[start..start + |mark|] == mark
    ensures value == value[..start] + (mark + value[start + |mark|..])
  {
    var tail := value[start..];
    assert value == value[..start] + tail;
    assert tail == tail[..|mark|] + tail[|mark|..];
    assert tail[..|mark|] == mark;
  }

  lemma CutOpener(value: string, start: nat)
    requires OpensAt(value, start)
    ensures value == value[..start] + (OPENER + value[start + 2..])
  {
    assert value[start..start + 2] == OPENER;
    CutAt(value, start, OPENER);
  }

  lemma CutBrace(value: string, end: nat)
    requires end < |value| && value[end] == '}'
    ensures value == value[..end] + ("}" + value[end + 1..])
  {
    assert value[end..end + 1] == "}";
    CutAt(value, end, "}");
  }

  /** No opener is in front of the first. */
  lemma BeforeOpener(value: string)
    ensures forall i: nat :: !OpensAt(value[..Opener(value)], i)
    ensures Opener(value) == |value| || Opener(value) + 2 <= |value|
  {
    hide Opener;
    assert forall i: nat :: OpensAt(value[..Opener(value)], i) ==> OpensAt(value, i);
  }

  lemma FoundAtOnce(literal: string, after: string, env: map<string, string>)
    requires forall i: nat :: !OpensAt(literal, i)
    ensures Found(literal, env, Text(literal), None)
    ensures !Fault(after, env).Expanded? ==> Found(literal + (OPENER + after), env, Text(literal), Some(after))
  {
    TextReading(literal, env);
    hide Fault, Text, Print, Proper, AllSet, OpensAt;
    assert literal + "" == literal;
  }

  /** Every value has such a reading. */
  lemma {:induction false} Reading(value: string, env: map<string, string>)
    returns (segments: seq<Segment>, rest: Option<string>)
    ensures Found(value, env, segments, rest)
    decreases |value|
  {
    hide *;
    assert value[..|value|] == value;
    var start := Opener(value);
    var literal := value[..start];
    BeforeOpener(value);
    if start == |value| {
      FoundAtOnce(literal, "", env);
      return Text(literal), None;
    }
    CutOpener(value, start);
    var after := value[start + 2..];
    FoundAtOnce(literal, after, env);
    if !Fault(after, env).Expanded? {
      return Text(literal), Some(after);
    }
    CutBrace(after, Closer(after));
    var name, next := after[..Closer(after)], after[Closer(after) + 1..];
    var more;
    more, rest := Reading(next, env);
    segments := Text(literal) + ([Placeholder(name)] + more);
    FoundGrows(literal, name, next, more, rest, env);
  }

  lemma FoundGrows(literal: string, name: string, next: string, more: seq<Segment>, rest: Option<string>,
    env: map<string, string>)
    requires Found(next, env, more, rest)
    requires (forall i: nat :: !OpensAt(literal, i)) && ValidName(name) && name in env
    ensures Found(literal + (OPENER + (name + ("}" + next))), env, Text(literal) + ([Placeholder(name)] + more), rest)
  {
    ReadingGrows(literal, name, more, env);
    hide Proper, AllSet, Print, Fault, Text;
    var last := if rest.None? then "" else OPENER + rest.value;
    Regroup("}", Print(more), last);
    Regroup(OPENER + name, "}", Print(more) + last);
    Regroup(OPENER, name, "}" + (Print(more) + last));
    Regroup(OPENER + name + "}", Print(more), last);
    Regroup(literal, OPENER + name + "}" + Print(more), last);
  }

  lemma TextReading(literal: string, env: map<string, string>)
    requires forall i: nat :: !OpensAt(literal, i)
    ensures Proper(Text(literal)) && AllSet(Text(literal), env) && Print(Text(literal)) == literal
  {
    if literal != "" {
      var front := [Literal(literal)];
      assert front[1..] == [];
      assert Print(front) == literal + Print([]);
    }
  }

  lemma ReadingGrows(literal: string, name: string, more: seq<Segment>, env: map<string, string>)
    requires (forall i: nat :: !OpensAt(literal, i)) && ValidName(name) && name in env && Proper(more) &&
      AllSet(more, env)
    ensures var segments := Text(literal) + ([Placeholder(name)] + more);
      Proper(segments) && AllSet(segments, env) && Print(segments) == literal + (OPENER + name + "}" + Print(more))
  {
    var next := [Placeholder(name)] + more;
    assert next[1..] == more;
    if literal == "" {
      assert [] + next == next;
    } else {
      assert ([Literal(literal)] + next)[1..] == next;
    }
  }

  // ---------- What expansion means ----------

  /** A value expands to a text exactly when it is the printed form of some template whose names are all set,
      and the text is that template with its placeholders substituted. */
  lemma ExpandsExactly(value: string, env: map<string, string>, text: string)
    ensures Expand(value, env) == Expanded(text) <==>
      exists segments :: Found(value, env, segments, None) && Substitute(segments, env) == text
  {
    var segments, rest := Reading(value, env);
    FoundOutcome(value, env, segments, rest);
    forall other | Found(value, env, other, None) ensures Expand(value, env) == Expanded(Substitute(other, env)) {
      FoundOutcome(value, env, other, None);
    }
  }

  /** A value fails exactly when, after some template whose names are all set, a placeholder opens that is
      malformed or unset; the failure is that placeholder's. */
  lemma FailsExactly(value: string, env: map<string, string>, fault: Outcome)
    requires !fault.Expanded?
    ensures Expand(value, env) == fault <==>
      exists segments, after :: Found(value, env, segments, Some(after)) && Fault(after, env) == fault
  {
    var segments, rest := Reading(value, env);
    FoundOutcome(value, env, segments, rest);
    forall other, after | Found(value, env, other, Some(after)) ensures Expand(value, env) == Fault(after, env) {
      FoundOutcome(value, env, other, Some(after));
    }
  }
}
