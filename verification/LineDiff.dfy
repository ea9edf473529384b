/**
 * The artifact view's line diff: a table of longest-common-subsequence lengths, then an edit
 * script read off it.
 */
module LineDiff {
  import opened Protocol

  type Line = string

  datatype Op = Keep | Del | Add
  datatype Row = Row(op: Op, text: Line)

  // ---------------------------------------------------------------- lines

  function Split(s: string): (lines: seq<Line>)
    ensures lines != []
  {
    if s == "" then [""]
    else
      var rest := Split(s[1..]);
      if s[0] == '\n' then [""] + rest else [[s[0]] + rest[0]] + rest[1..]
  }

  function Join(lines: seq<Line>): string
  {
    if lines == [] then ""
    else if |lines| == 1 then lines[0]
    else lines[0] + "\n" + Join(lines[1..])
  }

  /** Splitting loses nothing. */
  lemma {:induction false} JoinSplit(s: string)
    ensures Join(Split(s)) == s
  {
    if s != "" {
      JoinSplit(s[1..]);
      var rest := Split(s[1..]);
      if s[0] == '\n' {
        assert ([""] + rest)[1..] == rest;
        assert s == "\n" + s[1..];
      } else {
        var lines := [[s[0]] + rest[0]] + rest[1..];
        assert lines[1..] == rest[1..];
        assert s == [s[0]] + s[1..];
        if |rest| > 1 {
          assert [s[0]] + (rest[0] + "\n" + Join(rest[1..])) == ([s[0]] + rest[0]) + "\n" + Join(rest[1..]);
        }
      }
    }
  }

  /** No line contains a line break. */
  predicate AreLines(lines: seq<Line>)
  {
    forall i :: 0 <= i < |lines| ==> '\n' !in lines[i]
  }

  lemma {:induction false} SplitsIntoLines(s: string)
    ensures AreLines(Split(s))
  {
    if s != "" {
      SplitsIntoLines(s[1..]);
    }
  }

  /** What a text splits into are the only lines that join to it. */
  lemma {:induction false} SplitIsUnique(lines: seq<Line>)
    requires lines != [] && AreLines(lines)
    ensures Split(Join(lines)) == lines
    decreases |lines|, |lines[0]|
  {
    var text := Join(lines);
    if lines[0] != "" {
      var shorter := [lines[0][1..]] + lines[1..];
      assert lines[0] == [lines[0][0]] + lines[0][1..] && lines[0][0] in lines[0];
      assert text[1..] == Join(shorter) && text[0] == lines[0][0];
      SplitIsUnique(shorter);
    } else if |lines| > 1 {
      assert text == "\n" + Join(lines[1..]) && text[1..] == Join(lines[1..]);
      SplitIsUnique(lines[1..]);
    }
  }

  // ---------------------------------------------------------------- scripts

  /** The lines a script reads from the old text. */
  function OldSide(script: seq<Row>): seq<Line>
  {
    if script == [] then []
    else
      var last := script[|script| - 1];
      OldSide(script[..|script| - 1]) + (if last.op.Add? then [] else [last.text])
  }

  /** The lines a script writes to the new text. */
  function NewSide(script: seq<Row>): seq<Line>
  {
    if script == [] then []
    else
      var last := script[|script| - 1];
      NewSide(script[..|script| - 1]) + (if last.op.Del? then [] else [last.text])
  }

  function Kept(script: seq<Row>): seq<Line>
  {
    if script == [] then []
    else
      var last := script[|script| - 1];
      Kept(script[..|script| - 1]) + (if last.op.Keep? then [last.text] else [])
  }

  /** A script turns `a` into `b`. */
  predicate Edits(script: seq<Row>, a: seq<Line>, b: seq<Line>)
  {
    OldSide(script) == a && NewSide(script) == b
  }

  lemma SidesAppend(script: seq<Row>, row: Row)
    ensures OldSide(script + [row]) == OldSide(script) + (if row.op.Add? then [] else [row.text])
    ensures NewSide(script + [row]) == NewSide(script) + (if row.op.Del? then [] else [row.text])
    ensures Kept(script + [row]) == Kept(script) + (if row.op.Keep? then [row.text] else [])
  {
    assert (script + [row])[..|script|] == script;
  }

  // ---------------------------------------------------------------- common subsequences

  /** `c` can be read off `a` by dropping lines. */
  predicate Within(c: seq<Line>, a: seq<Line>)
  {
    c == [] || (a != [] && ((c[0] == a[0] && Within(c[1..], a[1..])) || Within(c, a[1..])))
  }


  /** The recurrence the table tabulates, on the suffixes from `i` and `j`. */
  function Lcs(a: seq<Line>, b: seq<Line>, i: nat, j: nat): nat
    requires i <= |a| && j <= |b|
    decreases |a| - i + |b| - j
  {
    if i == |a| || j == |b| then 0
    else if a[i] == b[j] then Lcs(a, b, i + 1, j + 1) + 1
    else MaxNat(Lcs(a, b, i + 1, j), Lcs(a, b, i, j + 1))
  }

  lemma {:induction false} DropHead(c: seq<Line>, a: seq<Line>)
    requires c != [] && a != [] && Within(c, a)
    ensures Within(c[1..], a[1..])
  {
    if !(c[0] == a[0] && Within(c[1..], a[1..])) {
      WithinTail(c, a[1..]);
    }
  }

  lemma {:induction false} WithinTail(c: seq<Line>, a: seq<Line>)
    requires c != [] && Within(c, a)
    ensures Within(c[1..], a)
  {
    if c[0] == a[0] && Within(c[1..], a[1..]) {
      WithinLonger(c[1..], a);
    } else {
      WithinTail(c, a[1..]);
      WithinLonger(c[1..], a);
    }
  }

  lemma WithinLonger(c: seq<Line>, a: seq<Line>)
    requires a != [] && Within(c, a[1..])
    ensures Within(c, a)
  {
  }

  /** No common subsequence of the suffixes is longer than the recurrence says. */
  lemma {:induction false} LcsIsUpperBound(a: seq<Line>, b: seq<Line>, i: nat, j: nat, c: seq<Line>)
    requires i <= |a| && j <= |b|
    requires Within(c, a[i..]) && Within(c, b[j..])
    ensures |c| <= Lcs(a, b, i, j)
    decreases |a| - i + |b| - j
  {
    if c != [] {
      assert i < |a| && j < |b|;
      assert a[i..][0] == a[i] && b[j..][0] == b[j];
      assert a[i..][1..] == a[i + 1..] && b[j..][1..] == b[j + 1..];
      if a[i] == b[j] {
        DropHead(c, a[i..]);
        DropHead(c, b[j..]);
        LcsIsUpperBound(a, b, i + 1, j + 1, c[1..]);
      } else if c[0] != a[i] {
        LcsIsUpperBound(a, b, i + 1, j, c);
      } else {
        LcsIsUpperBound(a, b, i, j + 1, c);
      }
    }
  }

  lemma {:induction false} WithinAppend(c: seq<Line>, a: seq<Line>, x: Line)
    requires Within(c, a)
    ensures Within(c, a + [x]) && Within(c + [x], a + [x])
  {
    if a == [] {
      assert c == [] && (a + [x])[1..] == [] && (c + [x])[1..] == [];
    } else {
      assert (a + [x])[1..] == a[1..] + [x];
      if c != [] && c[0] == a[0] && Within(c[1..], a[1..]) {
        WithinAppend(c[1..], a[1..], x);
        assert (c + [x])[1..] == c[1..] + [x];
      } else if c != [] {
        WithinAppend(c, a[1..], x);
      } else {
        WithinAppend(c, a[1..], x);
      }
    }
  }

  /** What a script keeps is a common subsequence of what it edits, and its length is fixed by
      how much it keeps. */
  lemma {:induction false} KeptIsCommon(script: seq<Row>)
    ensures Within(Kept(script), OldSide(script)) && Within(Kept(script), NewSide(script))
    ensures |script| == |OldSide(script)| + |NewSide(script)| - |Kept(script)|
  {
    if script != [] {
      var init, last := script[..|script| - 1], script[|script| - 1];
      KeptIsCommon(init);
      WithinAppend(Kept(init), OldSide(init), last.text);
      WithinAppend(Kept(init), NewSide(init), last.text);
      assert Kept(init) + [] == Kept(init);
      assert OldSide(init) + [] == OldSide(init) && NewSide(init) + [] == NewSide(init);
    }
  }

  /** A script that keeps as much as the recurrence says is a shortest one. */
  lemma KeepingMostIsShortest(a: seq<Line>, b: seq<Line>, script: seq<Row>, other: seq<Row>)
    requires Edits(script, a, b) && Edits(other, a, b)
    requires |Kept(script)| == Lcs(a, b, 0, 0)
    ensures |script| <= |other|
  {
    KeptIsCommon(script);
    KeptIsCommon(other);
    assert a[0..] == a && b[0..] == b;
    LcsIsUpperBound(a, b, 0, 0, Kept(other));
  }

  // ---------------------------------------------------------------- the algorithm

  /** Within a change the deleted lines come before the added ones. */
  predicate DeletionsFirst(script: seq<Row>)
  {
    forall k :: 0 <= k < |script| - 1 && script[k].op.Add? ==> !script[k + 1].op.Del?
  }

  /** Dropping a line of the new text never helps. */
  lemma {:induction false} LcsFalls(a: seq<Line>, b: seq<Line>, i: nat, j: nat)
    requires i <= |a| && j < |b|
    ensures Lcs(a, b, i, j + 1) <= Lcs(a, b, i, j)
    ensures i < |a| ==> Lcs(a, b, i, j) <= Lcs(a, b, i + 1, j) + 1
    decreases |a| - i + |b| - j
  {
    if i < |a| {
      LcsFalls(a, b, i + 1, j);
      if j + 1 < |b| {
        LcsFalls(a, b, i, j + 1);
        LcsFalls(a, b, i + 1, j + 1);
      }
    }
  }

  /** Row `i` and everything below it hold the recurrence; the last column is zero. */
  ghost predicate FilledFrom(dp: array2<nat>, a: seq<Line>, b: seq<Line>, i: nat)
    requires dp.Length0 == |a| + 1 && dp.Length1 == |b| + 1
    reads dp
  {
    && (forall p, q :: i <= p <= |a| && 0 <= q <= |b| ==> dp[p, q] == Lcs(a, b, p, q))
    && (forall p :: 0 <= p <= |a| ==> dp[p, |b|] == 0)
  }

  method FillTable(a: seq<Line>, b: seq<Line>) returns (dp: array2<nat>)
    ensures fresh(dp) && dp.Length0 == |a| + 1 && dp.Length1 == |b| + 1
    ensures FilledFrom(dp, a, b, 0)
  {
    dp := new nat[|a| + 1, |b| + 1]((i, j) => 0);
    var i := |a|;
    while i > 0
      invariant 0 <= i <= |a|
      invariant FilledFrom(dp, a, b, i)
    {
      i := i - 1;
      FillRow(dp, a, b, i);
    }
  }

  method FillRow(dp: array2<nat>, a: seq<Line>, b: seq<Line>, i: nat)
    requires i < |a| && dp.Length0 == |a| + 1 && dp.Length1 == |b| + 1
    requires FilledFrom(dp, a, b, i + 1)
    modifies dp
    ensures FilledFrom(dp, a, b, i)
  {
    var j := |b|;
    while j > 0
      invariant 0 <= j <= |b|
      invariant FilledFrom(dp, a, b, i + 1)
      invariant forall q :: j <= q <= |b| ==> dp[i, q] == Lcs(a, b, i, q)
    {
      j := j - 1;
      dp[i, j] := if a[i] == b[j] then dp[i + 1, j + 1] + 1 else MaxNat(dp[i + 1, j], dp[i, j + 1]);
    }
  }

  /** The script spells both texts and is as short as any script that does. */
  method Diff(before: string, after: string) returns (out: seq<Row>)
    ensures Edits(out, Split(before), Split(after))
    ensures |Kept(out)| == Lcs(Split(before), Split(after), 0, 0)
    ensures Join(OldSide(out)) == before && Join(NewSide(out)) == after
    ensures forall other :: Edits(other, Split(before), Split(after)) ==> |out| <= |other|
    ensures DeletionsFirst(out)
    ensures forall row :: row in out ==> '\n' !in row.text
    ensures forall row :: row in out && row.op == Del ==> row.text in Split(before)
    ensures forall row :: row in out && row.op == Add ==> row.text in Split(after)
    ensures forall row :: row in out && row.op == Keep ==> row.text in Split(before) && row.text in Split(after)
  {
    hide Split, Edits, Kept, DeletionsFirst;
    var a, b := Split(before), Split(after);
    JoinSplit(before);
    JoinSplit(after);
    SplitsIntoLines(before);
    SplitsIntoLines(after);
    if before == after {
      out := KeepAll(a);
    } else {
      var dp := FillTable(a, b);
      out := ReadScript(a, b, dp);
    }
    forall other | Edits(other, a, b) ensures |out| <= |other| {
      KeepingMostIsShortest(a, b, out, other);
    }
    RowsAreOfTheirSides(out, a, b);
  }

  lemma {:induction false} RowsAreLines(script: seq<Row>)
    ensures forall row :: row in script ==>
      (row.op == Add || row.text in OldSide(script)) && (row.op == Del || row.text in NewSide(script))
  {
    if script != [] {
      var n := |script| - 1;
      RowsAreLines(script[..n]);
      assert script == script[..n] + [script[n]];
    }
  }

  /** What a script deletes was in the old text, what it adds is in the new one, what it keeps in both. */
  lemma RowsAreOfTheirSides(script: seq<Row>, a: seq<Line>, b: seq<Line>)
    requires Edits(script, a, b)
    ensures OldSide(script) == a && NewSide(script) == b
    ensures forall row :: row in script ==> (row.op == Add || row.text in a) && (row.op == Del || row.text in b)
    ensures AreLines(a) && AreLines(b) ==> forall row :: row in script ==> '\n' !in row.text
  {
    RowsAreLines(script);
  }

  method KeepAll(a: seq<Line>) returns (out: seq<Row>)
    ensures Edits(out, a, a) && |Kept(out)| == Lcs(a, a, 0, 0) && DeletionsFirst(out)
  {
    hide Edits, Kept, DeletionsFirst;
    out := [];
    NoRows();
    var i := 0;
    LcsOfSame(a, 0);
    while i < |a|
      invariant i <= |a| && |Kept(out)| == i
      invariant Edits(out, a[..i], a[..i]) && DeletionsFirst(out)
    {
      KeepRow(out, a, a, i, i);
      RowAfter(out, Row(Keep, a[i]));
      out := out + [Row(Keep, a[i])];
      i := i + 1;
    }
    assert a[..i] == a;
  }

  lemma {:induction false} LcsOfSame(a: seq<Line>, i: nat)
    requires i <= |a|
    ensures Lcs(a, a, i, i) == |a| - i
    decreases |a| - i
  {
    if i < |a| {
      LcsOfSame(a, i + 1);
    }
  }

  lemma NoRows()
    ensures Edits([], [], []) && Kept([]) == [] && DeletionsFirst([])
  {
  }

  lemma RowAfter(script: seq<Row>, row: Row)
    requires DeletionsFirst(script)
    requires script != [] && script[|script| - 1].op.Add? ==> !row.op.Del?
    ensures DeletionsFirst(script + [row])
  {
  }

  lemma KeepRow(script: seq<Row>, a: seq<Line>, b: seq<Line>, i: nat, j: nat)
    requires i < |a| && j < |b| && a[i] == b[j] && Edits(script, a[..i], b[..j])
    ensures Edits(script + [Row(Keep, a[i])], a[..i + 1], b[..j + 1])
    ensures |Kept(script + [Row(Keep, a[i])])| == |Kept(script)| + 1
  {
    SidesAppend(script, Row(Keep, a[i]));
  }

  lemma DelRow(script: seq<Row>, a: seq<Line>, i: nat, newer: seq<Line>)
    requires i < |a| && Edits(script, a[..i], newer)
    ensures Edits(script + [Row(Del, a[i])], a[..i + 1], newer)
    ensures Kept(script + [Row(Del, a[i])]) == Kept(script)
  {
    SidesAppend(script, Row(Del, a[i]));
  }

  lemma AddRow(script: seq<Row>, prior: seq<Line>, b: seq<Line>, j: nat)
    requires j < |b| && Edits(script, prior, b[..j])
    ensures Edits(script + [Row(Add, b[j])], prior, b[..j + 1])
    ensures Kept(script + [Row(Add, b[j])]) == Kept(script)
  {
    SidesAppend(script, Row(Add, b[j]));
  }

  /** Walk the table: keep equal lines, else drop the side that loses nothing. */
  method ReadScript(a: seq<Line>, b: seq<Line>, dp: array2<nat>) returns (out: seq<Row>)
    requires dp.Length0 == |a| + 1 && dp.Length1 == |b| + 1
    requires FilledFrom(dp, a, b, 0)
    ensures Edits(out, a, b) && |Kept(out)| == Lcs(a, b, 0, 0) && DeletionsFirst(out)
  {
    hide Edits, Kept, DeletionsFirst;
    out := [];
    NoRows();
    var i, j := 0, 0;
    while i < |a| && j < |b|
      invariant 0 <= i <= |a| && 0 <= j <= |b|
      invariant Edits(out, a[..i], b[..j]) && |Kept(out)| + Lcs(a, b, i, j) == Lcs(a, b, 0, 0)
      invariant DeletionsFirst(out)
      invariant out != [] && out[|out| - 1].op.Add? && i < |a| ==> Lcs(a, b, i + 1, j) < Lcs(a, b, i, j)
      decreases |a| - i + |b| - j
    {
      if a[i] == b[j] {
        KeepRow(out, a, b, i, j);
        RowAfter(out, Row(Keep, a[i]));
        out := out + [Row(Keep, a[i])];
        i, j := i + 1, j + 1;
      } else if dp[i + 1, j] >= dp[i, j + 1] {
        DelRow(out, a, i, b[..j]);
        RowAfter(out, Row(Del, a[i]));
        out := out + [Row(Del, a[i])];
        i := i + 1;
      } else {
        LcsFalls(a, b, i + 1, j);
        AddRow(out, a[..i], b, j);
        RowAfter(out, Row(Add, b[j]));
        out := out + [Row(Add, b[j])];
        j := j + 1;
      }
    }
    out := ReadRest(a, b, i, j, out);
  }

  /** One side is used up: the other side's lines are deletions or additions. */
  method ReadRest(a: seq<Line>, b: seq<Line>, i0: nat, j0: nat, script: seq<Row>) returns (out: seq<Row>)
    requires i0 <= |a| && j0 <= |b| && (i0 == |a| || j0 == |b|)
    requires Edits(script, a[..i0], b[..j0]) && DeletionsFirst(script)
    requires script != [] && script[|script| - 1].op.Add? ==> i0 == |a|
    ensures Edits(out, a, b) && Kept(out) == Kept(script) && DeletionsFirst(out)
  {
    hide Edits, Kept, DeletionsFirst;
    out := script;
    var i, j := i0, j0;
    while i < |a|
      invariant i0 <= i <= |a|
      invariant Edits(out, a[..i], b[..j]) && Kept(out) == Kept(script) && DeletionsFirst(out)
      invariant out != [] && out[|out| - 1].op.Add? ==> i == |a|
    {
      DelRow(out, a, i, b[..j]);
      RowAfter(out, Row(Del, a[i]));
      out := out + [Row(Del, a[i])];
      i := i + 1;
    }
    while j < |b|
      invariant j0 <= j <= |b|
      invariant Edits(out, a[..i], b[..j]) && Kept(out) == Kept(script) && DeletionsFirst(out)
    {
      AddRow(out, a[..i], b, j);
      RowAfter(out, Row(Add, b[j]));
      out := out + [Row(Add, b[j])];
      j := j + 1;
    }
    assert a[..i] == a && b[..j] == b;
  }
}
