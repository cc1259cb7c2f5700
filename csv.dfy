/** The CLI's `parse_csv`: a comma-separated option value becomes a list of trimmed, non-empty items. */
module Csv {
  import opened Wrappers
  import opened Seqs
  import opened Text

  /** `map(|item| item.trim())` over the pieces. */
  function TrimEach(pieces: seq<string>): seq<string>
  {
    seq(|pieces|, i requires 0 <= i < |pieces| => Trim(pieces[i]))
  }

  /** The `filter` test of `parse_csv`. */
  function IsNonEmpty(item: string): bool
  {
    item != []
  }

  /** Trimming never introduces a character: a separator-free piece stays separator-free. */
  lemma TrimKeepsOut(p: string, sep: char)
    requires sep !in p
    ensures sep !in Trim(p)
  {
    var r := Trim(p);
    var k := |p| - |TrimStart(p)|;
    TrimIsInfix(p);
    assert p[k..k + |r|] == r;
    forall j | 0 <= j < |r| ensures r[j] != sep {
      assert r[j] == p[k + j];
    }
  }

  /** The trimmed pieces are already trimmed and have no separator. */
  lemma TrimmedPiecesClean(pieces: seq<string>, sep: char)
    requires forall i :: 0 <= i < |pieces| ==> sep !in pieces[i]
    ensures forall i :: 0 <= i < |pieces| ==> Trim(Trim(pieces[i])) == Trim(pieces[i]) && sep !in Trim(pieces[i])
  {
    forall i | 0 <= i < |pieces|
      ensures Trim(Trim(pieces[i])) == Trim(pieces[i]) && sep !in Trim(pieces[i])
    {
      TrimIdempotent(pieces[i]);
      TrimKeepsOut(pieces[i], sep);
    }
  }

  /** `parse_csv(input)`: `None` gives the empty list; otherwise the comma-separated pieces,
      each trimmed, with the empty ones dropped. */
  function ParseCsv(input: Option<string>): (r: seq<string>)
    ensures input.None? ==> r == []
    ensures forall i :: 0 <= i < |r| ==> r[i] != [] && Trim(r[i]) == r[i] && ',' !in r[i]
  {
    match input
    case None => []
    case Some(s) =>
      TrimmedPiecesClean(Split(s, ','), ',');
      Items(s)
  }

  /** The items of one comma-separated value. */
  function Items(s: string): seq<string>
  {
    Filter(IsNonEmpty, TrimEach(Split(s, ',')))
  }

  /** Items come out in input order: a comma splits the result into the results of its two sides. */
  lemma ParseCsvAppend(a: string, b: string)
    ensures ParseCsv(Some(a + [','] + b)) == ParseCsv(Some(a)) + ParseCsv(Some(b))
  {
    var pa, pb := Split(a, ','), Split(b, ',');
    SplitAppend(a, ',', b);
    TrimEachAppend(pa, pb);
    FilterAppend(IsNonEmpty, TrimEach(pa), TrimEach(pb));
    assert Items(a + [','] + b) == Items(a) + Items(b);
  }

  lemma TrimEachAppend(pa: seq<string>, pb: seq<string>)
    ensures TrimEach(pa + pb) == TrimEach(pa) + TrimEach(pb)
  {
    var l, r := TrimEach(pa + pb), TrimEach(pa) + TrimEach(pb);
    assert |l| == |r|;
    forall i | 0 <= i < |l| ensures l[i] == r[i] {
      if i < |pa| { assert (pa + pb)[i] == pa[i]; } else { assert (pa + pb)[i] == pb[i - |pa|]; }
    }
  }

  /** A comma-free input gives its trimmed text, or nothing when that is empty
      (a whitespace-only piece is dropped). */
  lemma ParseCsvPiece(s: string)
    requires ',' !in s
    ensures ParseCsv(Some(s)) == if Trim(s) == [] then [] else [Trim(s)]
    ensures ParseCsv(Some(s)) == [] <==> forall k :: 0 <= k < |s| ==> IsWhitespace(s[k])
  {
    SplitNoSeparator(s, ',');
    assert TrimEach([s]) == [Trim(s)];
    TrimEmpty(s);
  }
}
