/** `replace_marked_table`: the text between two markers of a document is replaced. */
module MarkedTable {
  import opened Basics

  const TABLE_START := "<!-- benchmark-table:start -->"
  const TABLE_END := "<!-- benchmark-table:end -->"

  predicate OccursAt(s: string, mark: string, i: nat) {
    i + |mark| <= |s| && s[i..i + |mark|] == mark
  }

  ghost predicate Occurs(s: string, mark: string) {
    exists i: nat :: OccursAt(s, mark, i)
  }

  lemma SliceOfTail(s: string, lo: nat, hi: nat)
    requires 0 < lo <= hi <= |s|
    ensures s[1..][lo - 1..hi - 1] == s[lo..hi]
  {
  }

  lemma OneLater(s: string, mark: string)
    requires s != []
    ensures forall j: nat :: j > 0 ==> (OccursAt(s, mark, j) <==> OccursAt(s[1..], mark, j - 1))
  {
    forall j: nat | j > 0 ensures OccursAt(s, mark, j) <==> OccursAt(s[1..], mark, j - 1) {
      if j + |mark| <= |s| {
        SliceOfTail(s, j, j + |mark|);
      }
    }
  }

  /** The position `str.partition` splits at. */
  function Find(s: string, mark: string): (at: Option<nat>)
    ensures at.Some? ==> OccursAt(s, mark, at.value) && forall j: nat :: j < at.value ==> !OccursAt(s, mark, j)
    ensures at.None? ==> !Occurs(s, mark)
    decreases |s|
  {
    if OccursAt(s, mark, 0) then Some(0)
    else if s == [] then None
    else
      var rest := Find(s[1..], mark);
      OneLater(s, mark);
      if rest.None? then None else Some(rest.value + 1)
  }

  /** None stands for the ValueError of missing markers. */
  function ReplaceBetween(document: string, start: string, end: string, table: string): Option<string> {
    var i := Find(document, start);
    if i.None? then None
    else
      var before, rest := document[..i.value], document[i.value + |start|..];
      var j := Find(rest, end);
      if j.None? then None
      else Some(before + start + ("\n" + table + end + rest[j.value + |end|..]))
  }

  function Replace(document: string, table: string): Option<string> {
    ReplaceBetween(document, TABLE_START, TABLE_END, table)
  }

  /** A document with both markers, cut at the first start marker and the first end marker after it. */
  predicate Marked(document: string, start: string, end: string, before: string, inner: string, after: string) {
    && document == before + start + (inner + end + after)
    && Find(document, start) == Some(|before|)
    && Find(inner + end + after, end) == Some(|inner|)
  }

  lemma CutAt(s: string, mark: string, i: nat)
    requires OccursAt(s, mark, i)
    ensures s == s[..i] + mark + s[i + |mark|..]
  {
  }

  /** Replacing keeps the text around the markers; between them it leaves a newline and the table. */
  lemma ReplaceKeepsSurroundings(document: string, start: string, end: string, table: string)
    returns (before: string, inner: string, after: string)
    requires ReplaceBetween(document, start, end, table).Some?
    ensures Marked(document, start, end, before, inner, after)
    ensures ReplaceBetween(document, start, end, table) == Some(before + start + ("\n" + table + end + after))
  {
    var i := Find(document, start).value;
    var rest := document[i + |start|..];
    CutAt(document, start, i);
    var j := Find(rest, end).value;
    CutAt(rest, end, j);
    before, inner, after := document[..i], rest[..j], rest[j + |end|..];
  }

  lemma ReplaceMarked(document: string, start: string, end: string, before: string, inner: string, after: string,
      table: string)
    requires Marked(document, start, end, before, inner, after)
    ensures ReplaceBetween(document, start, end, table) == Some(before + start + ("\n" + table + end + after))
  {
    var rest := inner + end + after;
    assert document[..|before|] == before && document[|before| + |start|..] == rest;
    assert rest[|inner| + |end|..] == after;
  }

  lemma OccursInSuffix(document: string, mark: string, n: nat, j: nat)
    requires n <= |document|
    ensures OccursAt(document[n..], mark, j) <==> OccursAt(document, mark, n + j)
  {
    if n + j + |mark| <= |document| {
      assert document[n..][j..j + |mark|] == document[n + j..n + j + |mark|];
    }
  }

  /** It fails exactly when no end marker follows a start marker. */
  lemma ReplaceFailsExactly(document: string, start: string, end: string, table: string)
    ensures ReplaceBetween(document, start, end, table).None? <==>
            !exists i: nat, j: nat :: OccursAt(document, start, i) && OccursAt(document, end, j) && i + |start| <= j
  {
    var at := Find(document, start);
    if at.Some? {
      var i, n := at.value, at.value + |start|;
      var rest := document[n..];
      if Find(rest, end).Some? {
        OccursInSuffix(document, end, n, Find(rest, end).value);
      } else {
        forall k: nat, j: nat | OccursAt(document, start, k) && k + |start| <= j
          ensures !OccursAt(document, end, j)
        {
          assert i <= k;
          OccursInSuffix(document, end, n, j - n);
        }
      }
    }
  }

  /** The same for the markers of the benchmark table. */
  lemma TableIsReplaced(document: string, table: string) returns (before: string, inner: string, after: string)
    requires Replace(document, table).Some?
    ensures document == before + "<!-- benchmark-table:start -->" + inner + "<!-- benchmark-table:end -->" + after
    ensures Find(document, "<!-- benchmark-table:start -->") == Some(|before|)
    ensures Find(inner + "<!-- benchmark-table:end -->" + after, "<!-- benchmark-table:end -->") == Some(|inner|)
    ensures Replace(document, table)
         == Some(before + "<!-- benchmark-table:start -->" + "\n" + table + "<!-- benchmark-table:end -->" + after)
  {
    hide Find, OccursAt, ReplaceBetween;
    before, inner, after := ReplaceKeepsSurroundings(document, TABLE_START, TABLE_END, table);
    assert before + TABLE_START + (inner + TABLE_END + after) == before + TABLE_START + inner + TABLE_END + after;
    assert before + TABLE_START + ("\n" + table + TABLE_END + after)
        == before + TABLE_START + "\n" + table + TABLE_END + after;
  }

  lemma TableFailsExactly(document: string, table: string)
    ensures Replace(document, table).None? <==>
            !exists i: nat, j: nat :: OccursAt(document, "<!-- benchmark-table:start -->", i)
              && OccursAt(document, "<!-- benchmark-table:end -->", j) && i + |"<!-- benchmark-table:start -->"| <= j
  {
    ReplaceFailsExactly(document, TABLE_START, TABLE_END, table);
  }

  lemma OccursInPrefix(s: string, t: string, n: nat, mark: string, j: nat)
    requires n <= |s| && n <= |t| && s[..n] == t[..n] && j + |mark| <= n
    ensures OccursAt(s, mark, j) <==> OccursAt(t, mark, j)
  {
    assert t[j..j + |mark|] == t[..n][j..j + |mark|] == s[..n][j..j + |mark|] == s[j..j + |mark|];
  }

  /** The first occurrence depends only on the text up to its end. */
  lemma FirstOccurrenceIsStable(before: string, mark: string, a: string, b: string)
    requires Find(before + mark + a, mark) == Some(|before|)
    ensures Find(before + mark + b, mark) == Some(|before|)
  {
    hide OccursAt;
    var s, t, n := before + mark + a, before + mark + b, |before| + |mark|;
    assert s[..n] == before + mark && t[..n] == before + mark;
    OccursInPrefix(s, t, n, mark, |before|);
    forall j: nat | j < |before| ensures !OccursAt(t, mark, j) {
      OccursInPrefix(s, t, n, mark, j);
    }
  }

  /** No proper suffix of the marker is a prefix of it, because its first character does not return. */
  predicate Borderless(mark: string) {
    |mark| > 0 && mark[0] != '\n' && forall k :: 0 < k < |mark| ==> mark[k] != mark[0]
  }

  lemma EndMarkerIsBorderless()
    ensures Borderless(TABLE_END)
  {
  }

  lemma AtIndex(s: string, mark: string, i: nat, k: nat)
    requires OccursAt(s, mark, i) && k < |mark|
    ensures s[i + k] == mark[k]
  {
    assert s[i..i + |mark|][k] == s[i + k];
  }

  /** So a table without the marker cannot move the marker that follows it. */
  lemma TableHidesNoEnd(table: string, end: string, after: string)
    requires Borderless(end) && !Occurs(table, end)
    ensures Find("\n" + table + end + after, end) == Some(|"\n" + table|)
  {
    var s, n := "\n" + table + end + after, 1 + |table|;
    assert s[n..n + |end|] == end;
    assert OccursAt(s, end, n);
    forall j: nat | j < n ensures !OccursAt(s, end, j) {
      var first: nat := if j == 0 then 0 else n - j;
      if 0 < j && j + |end| <= n {
        assert table[j - 1..j - 1 + |end|] == s[j..j + |end|];
        assert !OccursAt(table, end, j - 1);
      } else if OccursAt(s, end, j) {
        AtIndex(s, end, j, first);
      }
    }
  }

  lemma TableHidesEnd(table: string, end: string, after: string)
    requires Occurs(table, end)
    ensures var at := Find("\n" + table + end + after, end); at.Some? && at.value + |end| <= 1 + |table|
  {
    var p: nat :| OccursAt(table, end, p);
    var s := "\n" + table + end + after;
    assert s[1 + p..1 + p + |end|] == table[p..p + |end|];
    assert OccursAt(s, end, 1 + p);
  }

  /** Replacing a replaced table leaves no trace of the first one, if and only if that one does not contain
      the end marker itself. */
  lemma OverwriteBetween(document: string, start: string, end: string, t1: string, t2: string)
    requires Borderless(end) && ReplaceBetween(document, start, end, t1).Some?
    ensures ReplaceBetween(ReplaceBetween(document, start, end, t1).value, start, end, t2)
            == ReplaceBetween(document, start, end, t2)
       <==> !Occurs(t1, end)
  {
    var before, inner, after := ReplaceKeepsSurroundings(document, start, end, t1);
    ReplaceMarked(document, start, end, before, inner, after, t2);
    var once := before + start + ("\n" + t1 + end + after);
    FirstOccurrenceIsStable(before, start, inner + end + after, "\n" + t1 + end + after);
    if Occurs(t1, end) {
      TableHidesEnd(t1, end, after);
      LeftoversRemain(once, start, end, before, t1, after, t2);
    } else {
      TableHidesNoEnd(t1, end, after);
      ReplaceMarked(once, start, end, before, "\n" + t1, after, t2);
    }
  }

  lemma LeftoversRemain(once: string, start: string, end: string, before: string, t1: string, after: string, t2: string)
    requires once == before + start + ("\n" + t1 + end + after) && Find(once, start) == Some(|before|)
    requires |end| > 0
    requires var at := Find("\n" + t1 + end + after, end); at.Some? && at.value + |end| <= 1 + |t1|
    ensures ReplaceBetween(once, start, end, t2) != Some(before + start + ("\n" + t2 + end + after))
  {
    var inside := "\n" + t1 + end + after;
    var at := Find(inside, end).value;
    assert once[..|before|] == before && once[|before| + |start|..] == inside;
    assert |inside[at + |end|..]| > |after|;
    assert |before + start + ("\n" + t2 + end + inside[at + |end|..])| > |before + start + ("\n" + t2 + end + after)|;
  }

  lemma OverwriteLaw(document: string, t1: string, t2: string)
    requires Replace(document, t1).Some?
    ensures Replace(Replace(document, t1).value, t2) == Replace(document, t2) <==> !Occurs(t1, TABLE_END)
  {
    EndMarkerIsBorderless();
    OverwriteBetween(document, TABLE_START, TABLE_END, t1, t2);
  }

  /** A table that is nothing but the end marker survives being replaced. */
  lemma EndMarkerSurvives(t2: string)
    ensures var document := TABLE_START + TABLE_END;
            && Replace(document, TABLE_END).Some?
            && Replace(Replace(document, TABLE_END).value, t2) != Replace(document, t2)
  {
    var document := TABLE_START + TABLE_END;
    assert OccursAt(document, TABLE_START, 0);
    assert document[|TABLE_START|..] == TABLE_END;
    assert OccursAt(TABLE_END, TABLE_END, 0);
    OverwriteLaw(document, TABLE_END, t2);
  }
}
