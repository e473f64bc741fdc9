/** The part list of an S3 completion request against the measured ledger. */
module Reconcile {
  import opened Wrappers
  import opened Text
  import Multipart

  const MIN_PART_BYTES: int := 5 * 1024 * 1024

  datatype Listed = Listed(n: int, etag: string)
  datatype Entry = Entry(n: int, size: int, etag: string)
  datatype Refusal = InvalidPart | InvalidPartOrder | EntityTooSmall

  /** Quotes around the client's ETag, however many, do not matter. */
  function TrimQuotes(s: string): (r: string)
    ensures r == "" || (r[0] != '"' && r[|r| - 1] != '"')
    ensures s == "" || (s[0] != '"' && s[|s| - 1] != '"') ==> r == s
    decreases |s|
  {
    if s != "" && s[0] == '"' then TrimQuotes(s[1..])
    else if s != "" && s[|s| - 1] == '"' then TrimQuotes(s[..|s| - 1])
    else s
  }

  /** The ledger as a lookup by part number; of repeated numbers the last row counts. */
  function Lookup(ledger: seq<Entry>, n: int): Option<Entry> {
    if ledger == [] then None
    else if ledger[|ledger| - 1].n == n then Some(ledger[|ledger| - 1])
    else Lookup(ledger[..|ledger| - 1], n)
  }

  predicate InRange(parts: seq<Listed>) {
    parts != [] && forall i | 0 <= i < |parts| :: 1 <= parts[i].n <= 10_000
  }

  predicate Ascending(parts: seq<Listed>) {
    forall i | 0 <= i < |parts| - 1 :: parts[i].n < parts[i + 1].n
  }

  predicate Matches(part: Listed, ledger: seq<Entry>) {
    var row := Lookup(ledger, part.n);
    row.Some? && row.value.size >= 0 && EqIgnoreCase(row.value.etag, TrimQuotes(part.etag))
  }

  predicate AllMatch(parts: seq<Listed>, ledger: seq<Entry>) {
    forall i | 0 <= i < |parts| :: Matches(parts[i], ledger)
  }

  /** The ledger rows of the listed parts, in the client's order. */
  function Selected(parts: seq<Listed>, ledger: seq<Entry>): (r: seq<Entry>)
    requires AllMatch(parts, ledger)
    ensures |r| == |parts|
  {
    seq(|parts|, i requires 0 <= i < |parts| => Lookup(ledger, parts[i].n).value)
  }

  predicate LargeEnough(rows: seq<Entry>) {
    forall i | 0 <= i < |rows| - 1 :: rows[i].size >= MIN_PART_BYTES
  }

  /** What a completion request is answered: the stated precedence of refusals, and on success the
      ledger's own rows. */
  function Verdict(parts: seq<Listed>, ledger: seq<Entry>): Result<seq<Entry>, Refusal> {
    if !InRange(parts) then Failure(InvalidPart)
    else if !Ascending(parts) then Failure(InvalidPartOrder)
    else if !AllMatch(parts, ledger) then Failure(InvalidPart)
    else if !LargeEnough(Selected(parts, ledger)) then Failure(EntityTooSmall)
    else Success(Selected(parts, ledger))
  }

  method BuildIndex(ledger: seq<Entry>) returns (byNumber: map<int, Entry>)
    ensures forall n :: n in byNumber <==> Lookup(ledger, n).Some?
    ensures forall n | n in byNumber :: byNumber[n] == Lookup(ledger, n).value
  {
    byNumber := map[];
    for i := 0 to |ledger|
      invariant forall n :: n in byNumber <==> Lookup(ledger[..i], n).Some?
      invariant forall n | n in byNumber :: byNumber[n] == Lookup(ledger[..i], n).value
    {
      assert ledger[..i + 1][..i] == ledger[..i];
      byNumber := byNumber[ledger[i].n := ledger[i]];
    }
    assert ledger[..|ledger|] == ledger;
  }

  /** Reconciles as the server does: range, order, then one lookup per listed part, then sizes. */
  method ReconcileParts(parts: seq<Listed>, ledger: seq<Entry>) returns (r: Result<seq<Entry>, Refusal>)
    ensures r == Verdict(parts, ledger)
  {
    if !InRange(parts) {
      return Failure(InvalidPart);
    }
    if !Ascending(parts) {
      return Failure(InvalidPartOrder);
    }
    var byNumber := BuildIndex(ledger);
    var completion: seq<Entry> := [];
    for i := 0 to |parts|
      invariant |completion| == i
      invariant forall j | 0 <= j < i ::
                  Matches(parts[j], ledger) && completion[j] == Lookup(ledger, parts[j].n).value
    {
      if parts[i].n !in byNumber {
        return Failure(InvalidPart);
      }
      var row := byNumber[parts[i].n];
      if row.size < 0 || !EqIgnoreCase(row.etag, TrimQuotes(parts[i].etag)) {
        return Failure(InvalidPart);
      }
      completion := completion + [row];
    }
    assert completion == Selected(parts, ledger);
    r := if LargeEnough(completion) then Success(completion) else Failure(EntityTooSmall);
  }

  lemma {:induction false} LookupFinds(ledger: seq<Entry>, n: int)
    ensures Lookup(ledger, n).Some? ==> Lookup(ledger, n).value in ledger && Lookup(ledger, n).value.n == n
    ensures (exists e :: e in ledger && e.n == n) ==> Lookup(ledger, n).Some?
  {
    if ledger != [] {
      LookupFinds(ledger[..|ledger| - 1], n);
      assert ledger == ledger[..|ledger| - 1] + [ledger[|ledger| - 1]];
    }
  }

  lemma {:induction false} AscendingIsPairwise(parts: seq<Listed>, i: nat, j: nat)
    requires Ascending(parts) && i < j < |parts|
    ensures parts[i].n < parts[j].n
    decreases j - i
  {
    if i + 1 < j {
      AscendingIsPairwise(parts, i + 1, j);
    }
  }

  /** Success, exactly: the list is non-empty, in range and strictly ascending, every part is in the
      ledger with a matching ETag and a size, and all but the last are big enough. The result keeps
      the client's order with the ledger's own sizes and ETags. */
  lemma SucceedsExactlyWhen(parts: seq<Listed>, ledger: seq<Entry>)
    ensures Verdict(parts, ledger).Success? <==>
            parts != [] && (forall i | 0 <= i < |parts| :: 1 <= parts[i].n <= 10_000) &&
            (forall i, j | 0 <= i < j < |parts| :: parts[i].n < parts[j].n) &&
            AllMatch(parts, ledger) &&
            forall i | 0 <= i < |parts| - 1 :: Lookup(ledger, parts[i].n).value.size >= MIN_PART_BYTES
    ensures Verdict(parts, ledger).Success? ==>
              var rows := Verdict(parts, ledger).value;
              |rows| == |parts| &&
              forall i | 0 <= i < |rows| :: rows[i] in ledger && rows[i].n == parts[i].n && rows[i].size >= 0 &&
                                            EqIgnoreCase(rows[i].etag, TrimQuotes(parts[i].etag))
  {
    if Ascending(parts) {
      forall i, j | 0 <= i < j < |parts| ensures parts[i].n < parts[j].n {
        AscendingIsPairwise(parts, i, j);
      }
    }
    if Verdict(parts, ledger).Success? {
      var rows := Verdict(parts, ledger).value;
      forall i | 0 <= i < |rows| ensures rows[i] in ledger && rows[i].n == parts[i].n {
        assert Matches(parts[i], ledger);
        LookupFinds(ledger, parts[i].n);
      }
    } else if InRange(parts) && Ascending(parts) && AllMatch(parts, ledger) {
      var i :| 0 <= i < |parts| - 1 && Selected(parts, ledger)[i].size < MIN_PART_BYTES;
      assert Lookup(ledger, parts[i].n).value.size < MIN_PART_BYTES;
    }
  }

  /** Only quotes at the two ends are trimmed. */
  lemma {:induction false} OnlyQuotesAreTrimmed(s: string) returns (i: nat, j: nat)
    ensures i <= j <= |s| && TrimQuotes(s) == s[i..j]
    ensures (forall k | 0 <= k < i :: s[k] == '"') && forall k | j <= k < |s| :: s[k] == '"'
    decreases |s|
  {
    if s != "" && s[0] == '"' {
      var i', j' := OnlyQuotesAreTrimmed(s[1..]);
      i, j := i' + 1, j' + 1;
      assert s[1..][i'..j'] == s[i..j];
      forall k | 0 <= k < i ensures s[k] == '"' {
        assert k > 0 ==> s[1..][k - 1] == s[k];
      }
      forall k | j <= k < |s| ensures s[k] == '"' {
        assert s[1..][k - 1] == s[k];
      }
    } else if s != "" && s[|s| - 1] == '"' {
      i, j := OnlyQuotesAreTrimmed(s[..|s| - 1]);
      assert s[..|s| - 1][i..j] == s[i..j];
      forall k | j <= k < |s| ensures s[k] == '"' {
        assert k < |s| - 1 ==> s[..|s| - 1][k] == s[k];
      }
    } else {
      i, j := 0, |s|;
    }
  }

  /** Of repeated numbers the last row counts. */
  lemma {:induction false} LookupIsTheLast(ledger: seq<Entry>, i: nat)
    requires i < |ledger| && forall j | i < j < |ledger| :: ledger[j].n != ledger[i].n
    ensures Lookup(ledger, ledger[i].n) == Some(ledger[i])
    decreases |ledger|
  {
    if i < |ledger| - 1 {
      LookupIsTheLast(ledger[..|ledger| - 1], i);
    }
  }

  /** A part that names no measured part with this ETag: no row of that number, none measured, or a
      different ETag. */
  predicate Unmatched(part: Listed, ledger: seq<Entry>) {
    match Lookup(ledger, part.n)
    case None => true
    case Some(row) => row.size < 0 || !EqIgnoreCase(row.etag, TrimQuotes(part.etag))
  }

  /** When each refusal is given: a list that is empty, out of range or does not match; one that is
      not ascending; one with a small part before the last. */
  lemma RefusedExactlyWhen(parts: seq<Listed>, ledger: seq<Entry>)
    ensures var r := Verdict(parts, ledger);
            var outOfRange := parts == [] || exists i :: 0 <= i < |parts| && !(1 <= parts[i].n <= 10_000);
            var disordered := exists i, j :: 0 <= i < j < |parts| && parts[i].n >= parts[j].n;
            var unmatched := exists i :: 0 <= i < |parts| && Unmatched(parts[i], ledger);
            (r == Failure(InvalidPart) <==> outOfRange || (!disordered && unmatched)) &&
            (r == Failure(InvalidPartOrder) <==> !outOfRange && disordered) &&
            (r == Failure(EntityTooSmall) <==>
               !outOfRange && !disordered && !unmatched &&
               exists i :: 0 <= i < |parts| - 1 && Lookup(ledger, parts[i].n).value.size < 5_242_880)
  {
    assert forall i | 0 <= i < |parts| :: Matches(parts[i], ledger) <==> !Unmatched(parts[i], ledger);
    if Ascending(parts) {
      forall i, j | 0 <= i < j < |parts| ensures parts[i].n < parts[j].n {
        AscendingIsPairwise(parts, i, j);
      }
    } else {
      var i :| 0 <= i < |parts| - 1 && parts[i].n >= parts[i + 1].n;
    }
    if AllMatch(parts, ledger) {
      assert forall i | 0 <= i < |parts| :: Selected(parts, ledger)[i] == Lookup(ledger, parts[i].n).value;
    }
  }

  /** Only the rows of listed parts matter: ledgers that agree on those give the same answer, so
      unlisted rows and the order of rows are irrelevant. */
  lemma OnlyListedRowsMatter(parts: seq<Listed>, l1: seq<Entry>, l2: seq<Entry>)
    requires forall i | 0 <= i < |parts| :: Lookup(l1, parts[i].n) == Lookup(l2, parts[i].n)
    ensures Verdict(parts, l1) == Verdict(parts, l2)
  {
    assert forall i | 0 <= i < |parts| :: Matches(parts[i], l1) == Matches(parts[i], l2);
    if AllMatch(parts, l1) {
      assert Selected(parts, l1) == Selected(parts, l2);
    }
  }

  predicate UniqueNumbers(ledger: seq<Entry>) {
    forall i, j | 0 <= i < j < |ledger| :: ledger[i].n != ledger[j].n
  }

  lemma LookupIsOfTheSet(ledger: seq<Entry>, e: Entry)
    requires UniqueNumbers(ledger) && e in ledger
    ensures Lookup(ledger, e.n) == Some(e)
  {
    LookupFinds(ledger, e.n);
    var f := Lookup(ledger, e.n).value;
    var i :| 0 <= i < |ledger| && ledger[i] == e;
    var j :| 0 <= j < |ledger| && ledger[j] == f;
  }

  lemma LedgerOrderDoesNotMatter(parts: seq<Listed>, l1: seq<Entry>, l2: seq<Entry>)
    requires UniqueNumbers(l1) && UniqueNumbers(l2) && multiset(l1) == multiset(l2)
    ensures Verdict(parts, l1) == Verdict(parts, l2)
  {
    forall i | 0 <= i < |parts| ensures Lookup(l1, parts[i].n) == Lookup(l2, parts[i].n) {
      SameLookup(l1, l2, parts[i].n);
      SameLookup(l2, l1, parts[i].n);
    }
    OnlyListedRowsMatter(parts, l1, l2);
  }

  lemma SameLookup(l1: seq<Entry>, l2: seq<Entry>, n: int)
    requires UniqueNumbers(l2) && multiset(l1) == multiset(l2)
    ensures Lookup(l1, n).Some? ==> Lookup(l2, n) == Lookup(l1, n)
  {
    LookupFinds(l1, n);
    if Lookup(l1, n).Some? {
      assert Lookup(l1, n).value in multiset(l2);
      LookupIsOfTheSet(l2, Lookup(l1, n).value);
    }
  }

  function AsListed(rows: seq<Entry>): (r: seq<Listed>)
    ensures |r| == |rows|
  {
    seq(|rows|, i requires 0 <= i < |rows| => Listed(rows[i].n, rows[i].etag))
  }

  /** A ledger ETag that matched a trimmed one has no quotes to trim. */
  lemma MatchedEtagsAreTrimmed(recorded: string, sent: string)
    requires EqIgnoreCase(recorded, TrimQuotes(sent))
    ensures TrimQuotes(recorded) == recorded
  {
    var t := TrimQuotes(sent);
    if recorded != "" {
      assert Lower(recorded[0]) == Lower(t[0]);
      assert Lower(recorded[|recorded| - 1]) == Lower(t[|t| - 1]);
    }
  }

  /** The result is a fixed point: sent back as the request against itself as the ledger, it is
      accepted and unchanged. */
  lemma ResultIsAFixedPoint(parts: seq<Listed>, ledger: seq<Entry>)
    requires Verdict(parts, ledger).Success?
    ensures var rows := Verdict(parts, ledger).value; Verdict(AsListed(rows), rows) == Success(rows)
  {
    SucceedsExactlyWhen(parts, ledger);
    var rows := Verdict(parts, ledger).value;
    var again := AsListed(rows);
    assert UniqueNumbers(rows);
    forall i | 0 <= i < |again| ensures Matches(again[i], rows) && Lookup(rows, again[i].n) == Some(rows[i]) {
      LookupIsOfTheSet(rows, rows[i]);
      MatchedEtagsAreTrimmed(rows[i].etag, parts[i].etag);
      EqIgnoreCaseIsEquivalence(rows[i].etag, "", "");
    }
    assert Selected(again, rows) == rows;
  }

  /** An accepted list is one a completion may claim: its parts are in the upload's own ledger. */
  lemma AcceptedIsPreparable(c: Multipart.Config, s: Multipart.State, parts: seq<Listed>, ledger: seq<Entry>)
    requires c.s3 && Verdict(parts, ledger).Success?
    requires forall e | e in ledger && e.n >= 0 :: e.n in s.ledger && s.ledger[e.n] == Multipart.Stored(e.etag)
    ensures var rows := Verdict(parts, ledger).value;
            Multipart.Preparable(c, s,
              seq(|rows|, i requires 0 <= i < |rows| => Multipart.Part(if rows[i].n >= 0 then rows[i].n else 0, rows[i].etag)))
  {
    SucceedsExactlyWhen(parts, ledger);
  }
}
