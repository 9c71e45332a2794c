/**
 Gene post-processing (pkg/reef/evolution/client/evolver.go:412-500, 635-663) and the two
 validators a gene must pass (pkg/reef/evolution/client/gate.go:142-167,
 pkg/reef/evolution/gene.go:49-79).

 Strings are byte strings: limits count bytes, and a cut may fall inside a character.
 */
module Genes {
  import opened Tasks

  // ----- Lines -----

  /** strings.Split(s, "\n") */
  function Split(s: string): (r: seq<string>)
    ensures r != [] && forall l :: l in r ==> '\n' !in l
    decreases |s|
  {
    if s == [] then [""]
    else
      var rest := Split(s[1..]);
      assert rest[0] in rest && forall l :: l in rest[1..] ==> l in rest;
      if s[0] == '\n' then [""] + rest else [[s[0]] + rest[0]] + rest[1..]
  }

  /** strings.Join(lines, "\n") */
  function Join(lines: seq<string>): string
    requires lines != []
  {
    if |lines| == 1 then lines[0] else lines[0] + "\n" + Join(lines[1..])
  }

  function Newlines(s: string): nat {
    if s == [] then 0 else (if s[0] == '\n' then 1 else 0) + Newlines(s[1..])
  }

  /** lineCount: an empty string has one line. */
  function LineCount(s: string): nat {
    Newlines(s) + 1
  }

  lemma {:induction false} NewlinesAdd(a: string, b: string)
    ensures Newlines(a + b) == Newlines(a) + Newlines(b)
  {
    if a == [] {
      assert a + b == b;
    } else {
      NewlinesAdd(a[1..], b);
      assert (a + b)[1..] == a[1..] + b;
    }
  }

  lemma {:induction false} JoinCons(c: char, lines: seq<string>)
    requires lines != []
    ensures Join([[c] + lines[0]] + lines[1..]) == [c] + Join(lines)
  {
    if |lines| > 1 {
      assert ([[c] + lines[0]] + lines[1..])[1..] == lines[1..];
      assert [c] + lines[0] + "\n" + Join(lines[1..]) == [c] + (lines[0] + "\n" + Join(lines[1..]));
    }
  }

  /** The first n lines, joined: where they end in the text, and how many lines they are. */
  lemma {:induction false} FirstLines(s: string, n: nat)
    requires 0 < n <= |Split(s)|
    ensures var t := Join(Split(s)[..n]);
      && |t| <= |s| && t == s[..|t|] && LineCount(t) == n
      && (n < |Split(s)| ==> |t| < |s| && s[|t|] == '\n') && (n == |Split(s)| ==> t == s)
  {
    if s == [] {
      assert Split(s)[..1] == [""];
    } else if s[0] == '\n' {
      var rest := Split(s[1..]);
      assert Split(s) == [""] + rest;
      if n == 1 {
        assert Split(s)[..1] == [""];
      } else {
        FirstLines(s[1..], n - 1);
        assert Split(s)[..n] == [""] + rest[..n - 1];
        assert ([""] + rest[..n - 1])[1..] == rest[..n - 1];
        assert Join(Split(s)[..n]) == "\n" + Join(rest[..n - 1]);
      }
    } else {
      var rest := Split(s[1..]);
      FirstLines(s[1..], n);
      assert Split(s)[..n] == [[s[0]] + rest[0]] + rest[1..n];
      assert rest[1..n] == rest[..n][1..];
      JoinCons(s[0], rest[..n]);
    }
  }

  /** Splitting counts the lines, and joining undoes it. */
  lemma SplitJoins(s: string)
    ensures |Split(s)| == LineCount(s) && Join(Split(s)) == s
  {
    FirstLines(s, |Split(s)|);
    assert Split(s)[..|Split(s)|] == Split(s);
  }

  // ----- Truncation -----

  function Capped(s: string, maxChars: nat): string {
    if |s| > maxChars then s[..maxChars] else s
  }

  function Truncated(s: string, maxChars: nat, maxLines: nat): string
    requires maxLines > 0
  {
    var c := Capped(s, maxChars);
    if |Split(c)| > maxLines then Join(Split(c)[..maxLines]) else c
  }

  ghost predicate Within(s: string, maxChars: nat, maxLines: nat) {
    |s| <= maxChars && LineCount(s) <= maxLines
  }

  /** A prefix of `s` has no more lines than `s`, and one more if it reaches past a line break. */
  lemma LinesOfPrefix(s: string, n: nat, m: nat)
    requires n <= m <= |s|
    ensures LineCount(s[..n]) <= LineCount(s[..m])
    ensures n < m && s[n] == '\n' ==> LineCount(s[..n]) < LineCount(s[..m])
  {
    assert s[..m] == s[..n] + s[n..m];
    NewlinesAdd(s[..n], s[n..m]);
  }

  /** The truncated signal is the longest prefix within both limits. */
  lemma TruncatedIsLongest(s: string, maxChars: nat, maxLines: nat)
    requires maxLines > 0
    ensures var t := Truncated(s, maxChars, maxLines);
      && |t| <= |s| && t == s[..|t|] && Within(t, maxChars, maxLines)
      && forall n :: 0 <= n <= |s| && Within(s[..n], maxChars, maxLines) ==> n <= |t|
  {
    var c, t := Capped(s, maxChars), Truncated(s, maxChars, maxLines);
    SplitJoins(c);
    if |Split(c)| > maxLines {
      FirstLines(c, maxLines);
    }
    assert t == c[..|t|] == s[..|t|];
    forall n | 0 <= n <= |s| && Within(s[..n], maxChars, maxLines) ensures n <= |t| {
      if |t| < n {
        assert c[..n] == s[..n];
        LinesOfPrefix(c, |t|, n);
      }
    }
  }

  lemma OneCharacter(c: char)
    ensures LineCount([c]) == if c == '\n' then 2 else 1
  {
    var s := [c];
    assert s[1..] == "" && Newlines("") == 0;
    assert Newlines(s) == (if s[0] == '\n' then 1 else 0) + Newlines(s[1..]);
  }

  /** It is empty exactly when the signal was, or when one line is allowed and the first one is empty. */
  lemma TruncatedToNothing(s: string, maxChars: nat, maxLines: nat)
    requires maxChars > 0 && maxLines > 0
    ensures Truncated(s, maxChars, maxLines) == "" <==> s == "" || (maxLines == 1 && s[0] == '\n')
  {
    TruncatedIsLongest(s, maxChars, maxLines);
    var t := Truncated(s, maxChars, maxLines);
    if s != "" {
      OneCharacter(s[0]);
      assert s[..1] == [s[0]];
      if maxLines > 1 || s[0] != '\n' {
        assert Within(s[..1], maxChars, maxLines);
      } else {
        StartsWithBreak(t, s);
      }
    }
  }

  /** A non-empty prefix of a text that starts with a line break has two lines. */
  lemma StartsWithBreak(t: string, s: string)
    requires s != "" && s[0] == '\n' && |t| <= |s| && t == s[..|t|]
    ensures t != "" ==> LineCount(t) >= 2
  {
    if t != "" {
      assert t[0] == '\n';
    }
  }

  // ----- Genes -----

  datatype Limits = Limits(maxChars: int, maxLines: int, maxWarnings: int)
  {
    /** setDefaults */
    function WithDefaults(): (r: Limits)
      ensures r.maxChars > 0 && r.maxLines > 0 && r.maxWarnings > 0
      ensures (maxChars > 0 ==> r.maxChars == maxChars) && (maxLines > 0 ==> r.maxLines == maxLines) && (maxWarnings > 0 ==> r.maxWarnings == maxWarnings)
      ensures maxChars <= 0 && maxLines <= 0 && maxWarnings <= 0 ==> r == Limits(5000, 200, 20)
    {
      Limits(if maxChars <= 0 then 5000 else maxChars, if maxLines <= 0 then 200 else maxLines,
             if maxWarnings <= 0 then 20 else maxWarnings)
    }
  }

  datatype Event = Event(id: string, clientID: string)

  /** What the model's answer decodes to. */
  datatype Draft = Draft(strategyName: string, controlSignal: string, failureWarnings: seq<string>)

  class Gene {
    var id: string
    var strategyName: string
    var controlSignal: string
    var failureWarnings: seq<string>
    var sourceEvents: seq<string>
    var sourceClientID: string
    var version: int
    var status: string

    constructor (d: Draft)
      ensures strategyName == d.strategyName && controlSignal == d.controlSignal && failureWarnings == d.failureWarnings
      ensures sourceClientID == ""
    {
      id, strategyName, controlSignal, failureWarnings := "", d.strategyName, d.controlSignal, d.failureWarnings;
      sourceEvents, sourceClientID, version, status := [], "", 0, "";
    }

    /** truncateControlSignal */
    method TruncateControlSignal(limits: Limits)
      requires limits.maxChars > 0 && limits.maxLines > 0
      modifies this`controlSignal, this`failureWarnings
      ensures controlSignal == Truncated(old(controlSignal), limits.maxChars, limits.maxLines)
      ensures failureWarnings == if |old(failureWarnings)| > 20 then old(failureWarnings)[..20] else old(failureWarnings)
    {
      if |controlSignal| > limits.maxChars {
        controlSignal := controlSignal[..limits.maxChars];
      }
      var lines := Split(controlSignal);
      if |lines| > limits.maxLines {
        controlSignal := Join(lines[..limits.maxLines]);
      }
      if |failureWarnings| > 20 {
        failureWarnings := failureWarnings[..20];
      }
    }

    /** checkSyntax */
    method CheckSyntax(limits: Limits) returns (ok: bool)
      ensures ok <==>
        && strategyName != "" && controlSignal != "" && |controlSignal| <= limits.maxChars
        && LineCount(controlSignal) <= limits.maxLines && |failureWarnings| <= limits.maxWarnings
    {
      if strategyName == "" { return false; }
      if controlSignal == "" { return false; }
      if |controlSignal| > limits.maxChars { return false; }
      var lc := LineCount(controlSignal);
      if lc > limits.maxLines { return false; }
      if |failureWarnings| > limits.maxWarnings { return false; }
      return true;
    }

    /** Gene.Validate */
    method Validate() returns (errs: seq<string>)
      ensures errs == [] <==>
        && strategyName != "" && controlSignal != "" && |controlSignal| <= 5000
        && LineCount(controlSignal) <= 200 && |failureWarnings| <= 20
    {
      errs := [];
      if strategyName == "" { errs := errs + ["strategy_name required"]; }
      if controlSignal == "" { errs := errs + ["control_signal required"]; }
      if |controlSignal| > 5000 { errs := errs + ["control_signal exceeds 5000 chars"]; }
      if LineCount(controlSignal) > 200 { errs := errs + ["control_signal exceeds 200 lines"]; }
      if |failureWarnings| > 20 { errs := errs + ["failure_warnings exceeds 20 items"]; }
    }
  }

  /** Within the limits of both validators. */
  predicate Tight(limits: Limits) {
    0 < limits.maxChars <= 5000 && 0 < limits.maxLines <= 200
  }

  /**
   generateGene after the model answered; None for an answer that does not decode or names
   no strategy.  A gene made within the validators' limits passes both of them exactly when
   something is left of its control signal.
   */
  method GenerateGene(answer: Option<Draft>, freshID: string, events: seq<Event>, limits: Limits) returns (gene: Option<Gene>)
    requires limits.maxChars > 0 && limits.maxLines > 0
    ensures gene.None? <==> answer.None? || answer.value.strategyName == ""
    ensures gene.Some? ==> fresh(gene.value) && gene.value.version == 1 && gene.value.status == "draft" && gene.value.id == freshID
    ensures gene.Some? ==>
      && gene.value.strategyName == answer.value.strategyName
      && gene.value.controlSignal == Truncated(answer.value.controlSignal, limits.maxChars, limits.maxLines)
      && gene.value.sourceEvents == seq(|events|, i requires 0 <= i < |events| => events[i].id)
      && gene.value.sourceClientID == (if events == [] then "" else events[0].clientID)
      && gene.value.failureWarnings == if |answer.value.failureWarnings| > 20 then answer.value.failureWarnings[..20] else answer.value.failureWarnings
    ensures gene.Some? && Tight(limits) ==>
      && |gene.value.controlSignal| <= 5000 && LineCount(gene.value.controlSignal) <= 200 && |gene.value.failureWarnings| <= 20
      && (gene.value.controlSignal != "" <==>
            answer.value.controlSignal != "" && (limits.maxLines > 1 || answer.value.controlSignal[0] != '\n'))
  {
    if answer.None? || answer.value.strategyName == "" {
      return None;
    }
    var g := new Gene(answer.value);
    g.id, g.version := freshID, 1;
    g.sourceEvents := seq(|events|, i requires 0 <= i < |events| => events[i].id);
    if |events| > 0 {
      g.sourceClientID := events[0].clientID;
    }
    g.status := "draft";
    g.TruncateControlSignal(limits);
    TruncatedIsLongest(answer.value.controlSignal, limits.maxChars, limits.maxLines);
    TruncatedToNothing(answer.value.controlSignal, limits.maxChars, limits.maxLines);
    return Some(g);
  }

  /** Under the default limits a generated gene passes both validators exactly when the model gave it a control signal. */
  method GeneratedGenePasses(answer: Draft, freshID: string, events: seq<Event>) returns (syntax: bool, errs: seq<string>)
    requires answer.strategyName != ""
    ensures syntax <==> answer.controlSignal != ""
    ensures errs == [] <==> answer.controlSignal != ""
  {
    var gene := GenerateGene(Some(answer), freshID, events, Limits(0, 0, 0).WithDefaults());
    syntax := gene.value.CheckSyntax(Limits(0, 0, 0).WithDefaults());
    errs := gene.value.Validate();
  }

  // ----- Source events -----

  /** Each ID once, where it first occurs. */
  function Firsts(ids: seq<string>): seq<string> {
    if ids == [] then []
    else
      var front, last := Firsts(ids[..|ids| - 1]), ids[|ids| - 1];
      if last in front then front else front + [last]
  }

  predicate Distinct(ids: seq<string>) {
    forall i, j :: 0 <= i < j < |ids| ==> ids[i] != ids[j]
  }

  lemma {:induction false} FirstsAre(ids: seq<string>)
    ensures Distinct(Firsts(ids)) && forall x :: x in Firsts(ids) <==> x in ids
  {
    if ids != [] {
      FirstsAre(ids[..|ids| - 1]);
      assert ids == ids[..|ids| - 1] + [ids[|ids| - 1]];
    }
  }

  /** Known events keep their place at the front; new ones follow in order. */
  lemma {:induction false} FirstsExtend(known: seq<string>, more: seq<string>)
    requires Distinct(known)
    ensures |Firsts(known + more)| >= |known| && Firsts(known + more)[..|known|] == known
    decreases |known| + |more|
  {
    if more == [] {
      assert known + more == known;
      FirstsOfDistinct(known);
    } else {
      var all := known + more;
      assert all[..|all| - 1] == known + more[..|more| - 1];
      FirstsExtend(known, more[..|more| - 1]);
    }
  }

  /** What first occurs earlier is listed earlier. */
  lemma {:induction false} FirstsKeepOrder(ids: seq<string>, i: nat, j: nat) returns (p: nat, q: nat)
    requires i < j < |ids| && ids[i] !in ids[..i] && ids[j] !in ids[..j]
    ensures p < q < |Firsts(ids)| && Firsts(ids)[p] == ids[i] && Firsts(ids)[q] == ids[j]
  {
    var front := ids[..|ids| - 1];
    FirstsAre(front);
    if j < |front| {
      assert front[..i] == ids[..i] && front[..j] == ids[..j];
      p, q := FirstsKeepOrder(front, i, j);
    } else {
      assert front[i] in front;
      p :| 0 <= p < |Firsts(front)| && Firsts(front)[p] == ids[i];
      q := |Firsts(front)|;
    }
  }

  lemma {:induction false} FirstsOfDistinct(ids: seq<string>)
    requires Distinct(ids)
    ensures Firsts(ids) == ids
  {
    if ids != [] {
      var front, last := ids[..|ids| - 1], ids[|ids| - 1];
      FirstsOfDistinct(front);
      forall x | x in front ensures x != last {
        var i :| 0 <= i < |front| && front[i] == x;
        assert ids[i] == x;
      }
      assert ids == front + [last];
    }
  }

  /** The two loops of mutateGene over source events, with their `seen` map. */
  method MergeSources(known: seq<string>, events: seq<Event>) returns (merged: seq<string>)
    ensures merged == Firsts(known + seq(|events|, i requires 0 <= i < |events| => events[i].id))
  {
    hide Firsts;
    merged := [];
    FirstsOfNone();
    var seen: set<string> := {};
    for i := 0 to |known|
      invariant merged == Firsts(known[..i]) && forall x :: x in seen <==> x in merged
    {
      assert known[..i + 1] == known[..i] + [known[i]];
      FirstsSnoc(known[..i], known[i]);
      if known[i] !in seen {
        merged := merged + [known[i]];
        seen := seen + {known[i]};
      }
    }
    ghost var ids := seq(|events|, i requires 0 <= i < |events| => events[i].id);
    assert known[..|known|] == known + ids[..0];
    for i := 0 to |events|
      invariant merged == Firsts(known + ids[..i]) && forall x :: x in seen <==> x in merged
    {
      assert known + ids[..i + 1] == (known + ids[..i]) + [events[i].id];
      FirstsSnoc(known + ids[..i], events[i].id);
      if events[i].id !in seen {
        merged := merged + [events[i].id];
        seen := seen + {events[i].id};
      }
    }
    assert ids[..|events|] == ids;
  }

  lemma FirstsOfNone()
    ensures Firsts([]) == []
  {
  }

  lemma FirstsSnoc(ids: seq<string>, x: string)
    ensures Firsts(ids + [x]) == if x in Firsts(ids) then Firsts(ids) else Firsts(ids) + [x]
  {
    assert (ids + [x])[..|ids|] == ids;
  }
}
