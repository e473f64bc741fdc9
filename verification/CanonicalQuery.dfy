/** The canonical query of AWS Signature Version 4, and the classifier that reads the same raw
    query: the classifier cannot tell apart what one signature covers. */
module CanonicalQuery {
  import opened Wrappers
  import opened Text
  import opened Sorting

  datatype Pair = Pair(key: string, value: string)

  const SIGNATURE := "X-Amz-Signature"

  function KeyValue(piece: string): Pair {
    match SplitOnce(piece, '=')
    case None => Pair(piece, "")
    case Some((k, v)) => Pair(k, v)
  }

  function Render(p: Pair): string {
    p.key + "=" + p.value
  }

  /** The signed pairs of the pieces: empty pieces and the signature itself are left out. */
  function Signed(pieces: seq<string>): (r: seq<Pair>)
    ensures |r| <= |pieces|
  {
    if pieces == [] then []
    else if pieces[0] == "" || KeyValue(pieces[0]).key == SIGNATURE then Signed(pieces[1..])
    else [KeyValue(pieces[0])] + Signed(pieces[1..])
  }

  function Pairs(query: string): seq<Pair> {
    Signed(Split(query, '&'))
  }

  predicate PairLeq(p: Pair, q: Pair) {
    if p.key == q.key then LexLeq(p.value, q.value) else LexLeq(p.key, q.key)
  }

  function Rendered(pairs: seq<Pair>): (r: seq<string>)
    ensures |r| == |pairs| && forall i | 0 <= i < |r| :: r[i] == Render(pairs[i])
  {
    if pairs == [] then [] else [Render(pairs[0])] + Rendered(pairs[1..])
  }

  function Canonical(query: string): string {
    Join(Rendered(Sort(Pairs(query), PairLeq)), '&')
  }

  /** Collects, sorts and renders, as the server does. */
  method CanonicalizeQuery(query: string) returns (r: string)
    ensures r == Canonical(query)
  {
    var pieces := Split(query, '&');
    var pairs: seq<Pair> := [];
    for i := 0 to |pieces|
      invariant pairs + Signed(pieces[i..]) == Pairs(query)
    {
      if pieces[i] != "" && KeyValue(pieces[i]).key != SIGNATURE {
        pairs := pairs + [KeyValue(pieces[i])];
      }
    }
    assert pairs + Signed(pieces[|pieces|..]) == pairs;
    pairs := Sort(pairs, PairLeq);
    r := Join(Rendered(pairs), '&');
  }

  lemma PairOrder()
    ensures TotalOrder(PairLeq)
  {
    forall p: Pair, q: Pair ensures PairLeq(p, q) || PairLeq(q, p) {
      LexTotal(p.key, q.key);
      LexTotal(p.value, q.value);
    }
    forall p: Pair, q: Pair | PairLeq(p, q) && PairLeq(q, p) ensures p == q {
      LexTotal(p.key, q.key);
      LexTotal(p.value, q.value);
    }
    forall p: Pair, q: Pair, r: Pair | PairLeq(p, q) && PairLeq(q, r) ensures PairLeq(p, r) {
      PairTransitive(p, q, r);
    }
  }

  lemma PairTransitive(p: Pair, q: Pair, r: Pair)
    requires PairLeq(p, q) && PairLeq(q, r)
    ensures PairLeq(p, r)
  {
    LexTotal(p.key, q.key);
    LexTotal(q.key, r.key);
    if p.key == q.key == r.key {
      LexTransitive(p.value, q.value, r.value);
    } else if p.key != q.key && q.key != r.key {
      LexTransitive(p.key, q.key, r.key);
    }
  }

  /** A pair as it comes out of a query: the key has no separator, the value no ampersand. */
  predicate Plain(p: Pair) {
    '=' !in p.key && '&' !in p.key && '&' !in p.value && p.key != SIGNATURE
  }

  lemma {:induction false} SignedArePlain(pieces: seq<string>)
    requires forall p | p in pieces :: '&' !in p
    ensures forall p | p in Signed(pieces) :: Plain(p)
  {
    if pieces != [] {
      SignedArePlain(pieces[1..]);
      assert pieces[0] in pieces;
    }
  }

  lemma KeyValueOfRendered(p: Pair)
    requires Plain(p)
    ensures KeyValue(Render(p)) == p && Render(p) != ""
  {
    SplitOnceAt(p.key, p.value, '=');
  }

  lemma SignedCons(piece: string, pieces: seq<string>)
    requires piece != "" && KeyValue(piece).key != SIGNATURE
    ensures Signed([piece] + pieces) == [KeyValue(piece)] + Signed(pieces)
  {
    assert ([piece] + pieces)[1..] == pieces;
  }

  lemma {:induction false} SignedOfRendered(pairs: seq<Pair>)
    requires forall p | p in pairs :: Plain(p)
    ensures Signed(Rendered(pairs)) == pairs
  {
    if pairs != [] {
      assert pairs[0] in pairs;
      KeyValueOfRendered(pairs[0]);
      SignedOfRendered(pairs[1..]);
      SignedCons(Render(pairs[0]), Rendered(pairs[1..]));
      assert pairs == [pairs[0]] + pairs[1..];
    }
  }

  /** Reading a rendered list of pairs gives the list back. */
  lemma PairsOfJoined(pairs: seq<Pair>)
    requires forall p | p in pairs :: Plain(p)
    ensures Pairs(Join(Rendered(pairs), '&')) == pairs
  {
    SignedOfRendered(pairs);
    if pairs == [] {
      assert Split("", '&') == [""];
    } else {
      forall s | s in Rendered(pairs) ensures '&' !in s {
        var i :| 0 <= i < |pairs| && Rendered(pairs)[i] == s;
        assert pairs[i] in pairs;
      }
      SplitJoin(Rendered(pairs), '&');
    }
  }

  lemma PairsOfCanonical(query: string)
    ensures Pairs(Canonical(query)) == Sort(Pairs(query), PairLeq)
  {
    PairOrder();
    SortSorts(Pairs(query), PairLeq);
    SignedArePlain(Split(query, '&'));
    var sorted := Sort(Pairs(query), PairLeq);
    forall p | p in sorted ensures Plain(p) {
      assert p in multiset(sorted);
    }
    PairsOfJoined(sorted);
  }

  /** The canonical form is a complete invariant: it agrees exactly when the signed pairs agree as
      multisets, order and separators aside. */
  lemma CanonicalIsACompleteInvariant(q1: string, q2: string)
    ensures Canonical(q1) == Canonical(q2) <==> multiset(Pairs(q1)) == multiset(Pairs(q2))
  {
    PairOrder();
    PairsOfCanonical(q1);
    PairsOfCanonical(q2);
    SortIsCanonical(Pairs(q1), Pairs(q2), PairLeq);
  }

  lemma CanonicalIsIdempotent(query: string)
    ensures Canonical(Canonical(query)) == Canonical(query)
  {
    PairOrder();
    PairsOfCanonical(query);
    SortIsCanonical(Pairs(query), Pairs(query), PairLeq);
  }

  // ---- what is signed, and in which order ----

  /** How a piece is read: the text before its first equals sign and the text after it, or the whole
      piece and nothing. The signature itself is not signed. */
  predicate Reads(piece: string, p: Pair) {
    piece != "" && '=' !in p.key && p.key != "X-Amz-Signature" &&
    (piece == p.key + "=" + p.value || (piece == p.key && p.value == ""))
  }

  function ReadingsOf(pieces: seq<string>, p: Pair): nat {
    if pieces == [] then 0 else (if Reads(pieces[0], p) then 1 else 0) + ReadingsOf(pieces[1..], p)
  }

  lemma ReadsExactly(piece: string, p: Pair)
    ensures Reads(piece, p) <==> piece != "" && KeyValue(piece).key != SIGNATURE && KeyValue(piece) == p
  {
    if Reads(piece, p) && piece == p.key + "=" + p.value {
      SplitOnceAt(p.key, p.value, '=');
    }
  }

  lemma {:induction false} SignedCounts(pieces: seq<string>, p: Pair)
    ensures multiset(Signed(pieces))[p] == ReadingsOf(pieces, p)
  {
    if pieces != [] {
      SignedCounts(pieces[1..], p);
      ReadsExactly(pieces[0], p);
      if pieces[0] != "" && KeyValue(pieces[0]).key != SIGNATURE {
        assert Signed(pieces) == [KeyValue(pieces[0])] + Signed(pieces[1..]);
      }
    }
  }

  /** A pair is signed as often as some piece between ampersands reads as it. */
  lemma PairsAreWhatThePiecesRead(query: string, p: Pair)
    ensures multiset(Pairs(query))[p] == ReadingsOf(Split(query, '&'), p)
  {
    SignedCounts(Split(query, '&'), p);
  }

  /** Up by key, and of equal keys by value, both by the first character that differs. */
  ghost predicate Upwards(p: Pair, q: Pair) {
    if p.key == q.key then exists k: nat :: DiffersUpwards(p.value, q.value, k)
    else exists k: nat :: DiffersUpwards(p.key, q.key, k)
  }

  /** The canonical form lists exactly the signed pairs, upwards. */
  lemma CanonicalListsUpwards(query: string)
    ensures exists pairs: seq<Pair> ::
              multiset(pairs) == multiset(Pairs(query)) && Canonical(query) == Join(Rendered(pairs), '&') &&
              forall i, j | 0 <= i < j < |pairs| :: Upwards(pairs[i], pairs[j])
  {
    var pairs := Sort(Pairs(query), PairLeq);
    PairOrder();
    SortSorts(Pairs(query), PairLeq);
    forall i, j | 0 <= i < j < |pairs| ensures Upwards(pairs[i], pairs[j]) {
      LexLeqExactlyWhen(pairs[i].key, pairs[j].key);
      LexLeqExactlyWhen(pairs[i].value, pairs[j].value);
    }
  }

  // ---- the request classifier ----

  datatype Operation =
    | Put | Get | Head | Delete | CreateMultipart
    | UploadPart(uploadId: string, partNumber: int)
    | CompleteMultipart(uploadId: string)
    | AbortMultipart(uploadId: string)

  datatype RouteError = InvalidArgument | NotImplemented | MethodNotAllowed

  const UNSUPPORTED := ["acl", "tagging", "versionId", "torrent", "restore", "retention", "legal-hold",
                        "attributes", "select", "select-type"]

  predicate AnyPiece(pieces: seq<string>, key: string) {
    pieces != [] &&
    (pieces[0] == key || (SplitOnce(pieces[0], '=').Some? && SplitOnce(pieces[0], '=').value.0 == key) ||
     AnyPiece(pieces[1..], key))
  }

  predicate QueryFlag(query: string, key: string) {
    AnyPiece(Split(query, '&'), key)
  }

  function CountPieces(pieces: seq<string>, key: string): nat {
    if pieces == [] then 0
    else (if Split(pieces[0], '=')[0] == key then 1 else 0) + CountPieces(pieces[1..], key)
  }

  function FindPiece(pieces: seq<string>, key: string): Option<string> {
    if pieces == [] then None
    else
      match SplitOnce(pieces[0], '=')
      case Some((k, v)) => if k == key then Some(v) else FindPiece(pieces[1..], key)
      case None => FindPiece(pieces[1..], key)
  }

  function QueryValue(query: string, key: string): Option<string> {
    FindPiece(Split(query, '&'), key)
  }

  /** A decimal i32 with an optional sign. */
  function ParseI32(s: string): Option<int> {
    var signed := s != "" && (s[0] == '+' || s[0] == '-');
    var digits := if signed then s[1..] else s;
    if digits == "" || !Digits(digits) then None
    else
      var magnitude: int := Decimal(digits);
      var n := if signed && s[0] == '-' then -magnitude else magnitude;
      if -0x8000_0000 <= n <= 0x7fff_ffff then Some(n) else None
  }

  function PartNumber(text: Option<string>): Option<int> {
    if text.None? then None
    else
      var n := ParseI32(text.value);
      if n.Some? && 1 <= n.value <= 10_000 then n else None
  }

  predicate Unsupported(query: string) {
    exists key | key in UNSUPPORTED :: QueryFlag(query, key)
  }

  predicate Repeats(query: string, key: string) {
    CountPieces(Split(query, '&'), key) > 1
  }

  /** What the classifier reads off a raw query. */
  datatype Reading = Reading(
    unsupported: bool, uploads: bool, hasId: bool, hasPart: bool, repeated: bool,
    id: Option<string>, part: Option<string>)

  function Read(query: string): Reading {
    Reading(Unsupported(query),
            QueryFlag(query, "uploads"), QueryFlag(query, "uploadId"), QueryFlag(query, "partNumber"),
            Repeats(query, "uploads") || Repeats(query, "uploadId") || Repeats(query, "partNumber"),
            QueryValue(query, "uploadId"), QueryValue(query, "partNumber"))
  }

  function Route(verb: string, q: Reading): Result<Operation, RouteError> {
    if q.unsupported then Failure(NotImplemented)
    else if q.repeated then Failure(InvalidArgument)
    else if q.uploads then
      if verb == "POST" && !q.hasId && !q.hasPart then Success(CreateMultipart)
      else if q.hasId || q.hasPart then Failure(InvalidArgument)
      else Failure(NotImplemented)
    else if q.hasId then
      if q.id.None? || q.id.value == "" then Failure(InvalidArgument)
      else if verb == "PUT" then
        var number := PartNumber(q.part);
        if number.Some? then Success(UploadPart(q.id.value, number.value)) else Failure(InvalidArgument)
      else if verb == "POST" && !q.hasPart then Success(CompleteMultipart(q.id.value))
      else if verb == "DELETE" && !q.hasPart then Success(AbortMultipart(q.id.value))
      else if verb == "POST" || verb == "DELETE" then Failure(InvalidArgument)
      else Failure(NotImplemented)
    else if q.hasPart then Failure(if verb == "PUT" then InvalidArgument else NotImplemented)
    else if verb == "PUT" then Success(Put)
    else if verb == "GET" then Success(Get)
    else if verb == "HEAD" then Success(Head)
    else if verb == "DELETE" then Success(Delete)
    else Failure(MethodNotAllowed)
  }

  function Classify(verb: string, query: string, copySource: bool): Result<Operation, RouteError> {
    if copySource then Failure(NotImplemented) else Route(verb, Read(query))
  }

  // ---- what the classifier reads is a function of the signed pairs ----

  function CountKey(pairs: seq<Pair>, key: string): nat {
    if pairs == [] then 0 else (if pairs[0].key == key then 1 else 0) + CountKey(pairs[1..], key)
  }

  function FirstValue(pairs: seq<Pair>, key: string): string {
    if pairs == [] then "" else if pairs[0].key == key then pairs[0].value else FirstValue(pairs[1..], key)
  }

  /** A key the classifier asks for: never empty, never the signature. */
  predicate Asked(key: string) {
    key != "" && key != SIGNATURE && '=' !in key
  }

  lemma {:induction false} CountsAgree(pieces: seq<string>, key: string)
    requires Asked(key)
    ensures CountPieces(pieces, key) == CountKey(Signed(pieces), key)
    ensures AnyPiece(pieces, key) <==> CountPieces(pieces, key) > 0
  {
    if pieces != [] {
      CountsAgree(pieces[1..], key);
      FirstField(pieces[0], '=');
    }
  }

  function OrEmpty(v: Option<string>): string {
    if v.Some? then v.value else ""
  }

  lemma {:induction false} ValuesAgree(pieces: seq<string>, key: string)
    requires Asked(key) && CountPieces(pieces, key) <= 1
    ensures OrEmpty(FindPiece(pieces, key)) == FirstValue(Signed(pieces), key)
    ensures CountPieces(pieces, key) == 0 ==> FindPiece(pieces, key) == None && FirstValue(Signed(pieces), key) == ""
  {
    if pieces != [] {
      FirstField(pieces[0], '=');
      ValuesAgree(pieces[1..], key);
    }
  }

  lemma {:induction false} CountIsOfTheMultiset(pairs: seq<Pair>, key: string, p: Pair)
    requires p.key == key
    ensures p in pairs ==> CountKey(pairs, key) > 0
    ensures p in pairs && CountKey(pairs, key) <= 1 ==> FirstValue(pairs, key) == p.value
    ensures CountKey(pairs, key) > 0 ==> Pair(key, FirstValue(pairs, key)) in pairs
    ensures CountKey(pairs, key) == 0 ==> FirstValue(pairs, key) == ""
  {
    if pairs != [] {
      CountIsOfTheMultiset(pairs[1..], key, p);
      assert pairs == [pairs[0]] + pairs[1..];
    }
  }

  lemma {:induction false} InsertCounts(p: Pair, pairs: seq<Pair>, key: string)
    ensures CountKey(Insert(p, pairs, PairLeq), key) == (if p.key == key then 1 else 0) + CountKey(pairs, key)
  {
    if pairs == [] || PairLeq(p, pairs[0]) {
      assert ([p] + pairs)[1..] == pairs;
    } else {
      InsertCounts(p, pairs[1..], key);
      assert ([pairs[0]] + Insert(p, pairs[1..], PairLeq))[1..] == Insert(p, pairs[1..], PairLeq);
    }
  }

  lemma {:induction false} SortCounts(pairs: seq<Pair>, key: string)
    ensures CountKey(Sort(pairs, PairLeq), key) == CountKey(pairs, key)
  {
    if pairs != [] {
      SortCounts(pairs[1..], key);
      InsertCounts(pairs[0], Sort(pairs[1..], PairLeq), key);
    }
  }

  /** Everything the classifier asks about one key has the same answer. */
  predicate SameFor(q: string, r: string, key: string) {
    (QueryFlag(q, key) <==> QueryFlag(r, key)) && (Repeats(q, key) <==> Repeats(r, key)) &&
    (!Repeats(q, key) ==> OrEmpty(QueryValue(q, key)) == OrEmpty(QueryValue(r, key)))
  }

  lemma KeyReadsTheSame(query: string, key: string)
    requires Asked(key)
    ensures SameFor(query, Canonical(query), key)
  {
    var c := Canonical(query);
    PairsOfCanonical(query);
    CountsAgree(Split(query, '&'), key);
    CountsAgree(Split(c, '&'), key);
    SortCounts(Pairs(query), key);
    if !Repeats(c, key) {
      ValuesAgree(Split(query, '&'), key);
      ValuesAgree(Split(c, '&'), key);
      var v := FirstValue(Pairs(query), key);
      CountIsOfTheMultiset(Pairs(query), key, Pair(key, v));
      PairOrder();
      SortSorts(Pairs(query), PairLeq);
      assert Pair(key, v) in multiset(Pairs(query)) <==> Pair(key, v) in multiset(Pairs(c));
      CountIsOfTheMultiset(Pairs(c), key, Pair(key, v));
    }
  }

  lemma UnsupportedAreAsked(key: string)
    requires key in UNSUPPORTED
    ensures Asked(key)
  {
    var i :| 0 <= i < |UNSUPPORTED| && UNSUPPORTED[i] == key;
    assert forall k | 0 <= k < |UNSUPPORTED| :: Asked(UNSUPPORTED[k]);
  }

  lemma UnsupportedReadsTheSame(query: string)
    ensures Unsupported(query) <==> Unsupported(Canonical(query))
  {
    forall key | key in UNSUPPORTED ensures QueryFlag(query, key) <==> QueryFlag(Canonical(query), key) {
      UnsupportedAreAsked(key);
      KeyReadsTheSame(query, key);
    }
  }

  /** Two readings that differ at most in how an empty value was written. */
  predicate SameReading(q: Reading, r: Reading) {
    q.unsupported == r.unsupported && q.uploads == r.uploads && q.hasId == r.hasId && q.hasPart == r.hasPart &&
    q.repeated == r.repeated && (!q.repeated ==> OrEmpty(q.id) == OrEmpty(r.id) && OrEmpty(q.part) == OrEmpty(r.part))
  }

  lemma RouteSeesOnlyTheReading(verb: string, q: Reading, r: Reading)
    requires SameReading(q, r)
    ensures Route(verb, q) == Route(verb, r)
  {
    assert PartNumber(Some("")) == None;
  }

  lemma SameKeysSameReading(q: string, r: string)
    requires Unsupported(q) <==> Unsupported(r)
    requires SameFor(q, r, "uploads") && SameFor(q, r, "uploadId") && SameFor(q, r, "partNumber")
    ensures SameReading(Read(q), Read(r))
  {
  }

  lemma CanonicalReadsTheSame(query: string)
    ensures SameReading(Read(query), Read(Canonical(query)))
  {
    UnsupportedReadsTheSame(query);
    KeyReadsTheSame(query, "uploads");
    KeyReadsTheSame(query, "uploadId");
    KeyReadsTheSame(query, "partNumber");
    SameKeysSameReading(query, Canonical(query));
  }

  /** The canonical query classifies as the raw one does. */
  lemma ClassifySeesOnlyTheCanonicalQuery(verb: string, query: string, copySource: bool)
    ensures Classify(verb, query, copySource) == Classify(verb, Canonical(query), copySource)
  {
    CanonicalReadsTheSame(query);
    RouteSeesOnlyTheReading(verb, Read(query), Read(Canonical(query)));
  }

  /** One signature never covers two meanings: queries with equal canonical form - equal multisets
      of signed pairs - classify to the same operation or the same error. */
  lemma EqualCanonicalClassifiesEqually(verb: string, q1: string, q2: string, copySource: bool)
    requires multiset(Pairs(q1)) == multiset(Pairs(q2))
    ensures Classify(verb, q1, copySource) == Classify(verb, q2, copySource)
  {
    CanonicalIsACompleteInvariant(q1, q2);
    ClassifySeesOnlyTheCanonicalQuery(verb, q1, copySource);
    ClassifySeesOnlyTheCanonicalQuery(verb, q2, copySource);
  }

  // ---- what each answer means ----

  predicate Has(pairs: seq<Pair>, key: string) {
    exists p | p in pairs :: p.key == key
  }

  /** The only value of a key. */
  predicate HasOnly(pairs: seq<Pair>, key: string, value: string) {
    CountKey(pairs, key) == 1 && Pair(key, value) in pairs
  }

  predicate Implemented(pairs: seq<Pair>, copySource: bool) {
    !copySource && forall p | p in pairs ::
      p.key !in {"acl", "tagging", "versionId", "torrent", "restore", "retention", "legal-hold", "attributes",
                 "select", "select-type"}
  }

  /** No key that decides is repeated. */
  predicate Unambiguous(pairs: seq<Pair>) {
    CountKey(pairs, "uploads") <= 1 && CountKey(pairs, "uploadId") <= 1 && CountKey(pairs, "partNumber") <= 1
  }

  predicate Clear(pairs: seq<Pair>, copySource: bool) {
    Implemented(pairs, copySource) && Unambiguous(pairs)
  }

  /** An upload id with text, and no request to create one. */
  predicate Names(pairs: seq<Pair>, id: string) {
    !Has(pairs, "uploads") && HasOnly(pairs, "uploadId", id) && id != ""
  }

  ghost predicate NamesSome(pairs: seq<Pair>) {
    exists id :: Names(pairs, id)
  }

  /** The part number is text for a number that a part can have. */
  ghost predicate Numbers(pairs: seq<Pair>, n: int) {
    1 <= n <= 10_000 && exists text :: HasOnly(pairs, "partNumber", text) && ParseI32(text) == Some(n)
  }

  ghost predicate NumbersSome(pairs: seq<Pair>) {
    exists n :: Numbers(pairs, n)
  }

  predicate IsObjectRequest(pairs: seq<Pair>) {
    !Has(pairs, "uploads") && !Has(pairs, "uploadId") && !Has(pairs, "partNumber")
  }

  lemma {:induction false} CountIsPresence(pairs: seq<Pair>, key: string)
    ensures CountKey(pairs, key) > 0 <==> Has(pairs, key)
    ensures CountKey(pairs, key) > 0 ==> Pair(key, FirstValue(pairs, key)) in pairs
    ensures CountKey(pairs, key) == 1 ==> forall v :: Pair(key, v) in pairs <==> v == FirstValue(pairs, key)
  {
    if pairs != [] {
      CountIsPresence(pairs[1..], key);
      assert pairs == [pairs[0]] + pairs[1..];
    }
  }

  /** What is read about a key, from the pairs. */
  lemma KeyIsReadFromThePairs(query: string, key: string)
    requires Asked(key)
    ensures var pairs := Pairs(query);
            (QueryFlag(query, key) <==> Has(pairs, key)) && (Repeats(query, key) <==> CountKey(pairs, key) > 1) &&
            (!Repeats(query, key) ==>
               OrEmpty(QueryValue(query, key)) == FirstValue(pairs, key) &&
               forall v :: HasOnly(pairs, key, v) <==> Has(pairs, key) && v == OrEmpty(QueryValue(query, key)))
  {
    CountsAgree(Split(query, '&'), key);
    CountIsPresence(Pairs(query), key);
    if !Repeats(query, key) {
      ValuesAgree(Split(query, '&'), key);
    }
  }

  lemma UnsupportedIsReadFromThePairs(query: string)
    ensures Unsupported(query) <==> !Implemented(Pairs(query), false)
  {
    var keys := {"acl", "tagging", "versionId", "torrent", "restore", "retention", "legal-hold", "attributes",
                 "select", "select-type"};
    assert forall key :: key in keys <==> key in UNSUPPORTED;
    forall key | key in UNSUPPORTED ensures QueryFlag(query, key) <==> Has(Pairs(query), key) {
      UnsupportedAreAsked(key);
      KeyIsReadFromThePairs(query, key);
    }
  }

  /** A reading that says of the pairs what they are. */
  ghost predicate Tells(q: Reading, pairs: seq<Pair>) {
    (q.unsupported <==> !Implemented(pairs, false)) && (q.repeated <==> !Unambiguous(pairs)) &&
    (q.uploads <==> Has(pairs, "uploads")) && (q.hasId <==> Has(pairs, "uploadId")) &&
    (q.hasPart <==> Has(pairs, "partNumber")) &&
    (!q.repeated ==>
       (forall v :: HasOnly(pairs, "uploadId", v) <==> q.hasId && v == OrEmpty(q.id)) &&
       (forall v :: HasOnly(pairs, "partNumber", v) <==> q.hasPart && v == OrEmpty(q.part)) &&
       (!q.hasPart ==> OrEmpty(q.part) == ""))
  }

  lemma ReadingTells(query: string)
    ensures Tells(Read(query), Pairs(query))
  {
    UnsupportedIsReadFromThePairs(query);
    KeyIsReadFromThePairs(query, "uploads");
    KeyIsReadFromThePairs(query, "uploadId");
    KeyIsReadFromThePairs(query, "partNumber");
    CountIsPresence(Pairs(query), "partNumber");
    CountIsOfTheMultiset(Pairs(query), "partNumber", Pair("partNumber", ""));
  }

  lemma ReadingNames(q: Reading, pairs: seq<Pair>, id: string)
    requires Tells(q, pairs) && !q.repeated
    ensures Names(pairs, id) <==> !q.uploads && q.hasId && id == OrEmpty(q.id) && id != ""
  {
  }

  lemma ReadingNumbers(q: Reading, pairs: seq<Pair>, n: int)
    requires Tells(q, pairs) && !q.repeated
    ensures Numbers(pairs, n) <==> PartNumber(q.part) == Some(n)
  {
    assert ParseI32("") == None;
    if PartNumber(q.part) == Some(n) {
      assert HasOnly(pairs, "partNumber", q.part.value);
    }
  }

  lemma ReadingNamesSome(q: Reading, pairs: seq<Pair>)
    requires Tells(q, pairs) && !q.repeated
    ensures NamesSome(pairs) <==> !q.uploads && q.hasId && OrEmpty(q.id) != ""
    ensures NumbersSome(pairs) <==> PartNumber(q.part).Some?
  {
    ReadingNames(q, pairs, OrEmpty(q.id));
    forall id ensures Names(pairs, id) <==> !q.uploads && q.hasId && id == OrEmpty(q.id) && id != "" {
      ReadingNames(q, pairs, id);
    }
    forall n ensures Numbers(pairs, n) <==> PartNumber(q.part) == Some(n) {
      ReadingNumbers(q, pairs, n);
    }
    if PartNumber(q.part).Some? {
      assert Numbers(pairs, PartNumber(q.part).value);
    }
  }

  /** When each operation on an object or a new upload is meant. */
  lemma ObjectRequestExactlyWhen(verb: string, query: string, copySource: bool)
    ensures var r, pairs := Classify(verb, query, copySource), Pairs(query);
            var plain := Implemented(pairs, copySource) && IsObjectRequest(pairs);
            (r == Success(Put) <==> plain && verb == "PUT") &&
            (r == Success(Get) <==> plain && verb == "GET") &&
            (r == Success(Head) <==> plain && verb == "HEAD") &&
            (r == Success(Delete) <==> plain && verb == "DELETE") &&
            (r == Failure(MethodNotAllowed) <==> plain && verb !in {"PUT", "GET", "HEAD", "DELETE"}) &&
            (r == Success(CreateMultipart) <==>
               Clear(pairs, copySource) && verb == "POST" &&
               Has(pairs, "uploads") && !Has(pairs, "uploadId") && !Has(pairs, "partNumber"))
  {
    ReadingTells(query);
    CountIsPresence(Pairs(query), "uploads");
    CountIsPresence(Pairs(query), "uploadId");
    CountIsPresence(Pairs(query), "partNumber");
  }

  /** The one id that the reading names, when it names one. */
  predicate NamedBy(q: Reading, id: string) {
    !q.unsupported && !q.repeated && !q.uploads && q.hasId && id == OrEmpty(q.id) && id != ""
  }

  lemma RoutesToUpload(verb: string, q: Reading, id: string, n: int)
    ensures Route(verb, q) == Success(UploadPart(id, n)) <==>
            NamedBy(q, id) && verb == "PUT" && PartNumber(q.part) == Some(n)
    ensures Route(verb, q) == Success(CompleteMultipart(id)) <==> NamedBy(q, id) && verb == "POST" && !q.hasPart
    ensures Route(verb, q) == Success(AbortMultipart(id)) <==> NamedBy(q, id) && verb == "DELETE" && !q.hasPart
  {
  }

  lemma NamedFromThePairs(query: string, id: string)
    ensures NamedBy(Read(query), id) <==> Clear(Pairs(query), false) && Names(Pairs(query), id)
  {
    ReadingTells(query);
    if !Read(query).repeated {
      ReadingNames(Read(query), Pairs(query), id);
    }
  }

  /** When a part is uploaded: one upload is named and one number given. */
  lemma PartRequestExactlyWhen(verb: string, query: string, copySource: bool, id: string, n: int)
    ensures var r, pairs := Classify(verb, query, copySource), Pairs(query);
            r == Success(UploadPart(id, n)) <==>
              Clear(pairs, copySource) && verb == "PUT" && Names(pairs, id) && Numbers(pairs, n)
  {
    RoutesToUpload(verb, Read(query), id, n);
    NamedFromThePairs(query, id);
    ReadingTells(query);
    if !Read(query).repeated {
      ReadingNumbers(Read(query), Pairs(query), n);
    }
  }

  lemma PartFromThePairs(query: string)
    ensures Read(query).hasPart <==> Has(Pairs(query), "partNumber")
  {
    ReadingTells(query);
  }

  /** When an upload is completed: one upload is named and no part. */
  lemma CompleteRequestExactlyWhen(verb: string, query: string, copySource: bool, id: string)
    ensures var r, pairs := Classify(verb, query, copySource), Pairs(query);
            r == Success(CompleteMultipart(id)) <==>
              Clear(pairs, copySource) && verb == "POST" && Names(pairs, id) && !Has(pairs, "partNumber")
  {
    RoutesToUpload(verb, Read(query), id, 0);
    NamedFromThePairs(query, id);
    PartFromThePairs(query);
  }

  /** When an upload is aborted: likewise, and the verb is what tells them apart. */
  lemma AbortRequestExactlyWhen(verb: string, query: string, copySource: bool, id: string)
    ensures var r, pairs := Classify(verb, query, copySource), Pairs(query);
            r == Success(AbortMultipart(id)) <==>
              Clear(pairs, copySource) && verb == "DELETE" && Names(pairs, id) && !Has(pairs, "partNumber")
  {
    RoutesToUpload(verb, Read(query), id, 0);
    NamedFromThePairs(query, id);
    PartFromThePairs(query);
  }

  /** What is invalid in a request whose keys are all implemented: `named` and `numbered` say that
      one upload id with text and one usable part number are there. */
  predicate Wrong(verb: string, clear: bool, uploads: bool, id: bool, part: bool, named: bool, numbered: bool) {
    !clear || (uploads && (id || part)) || (!uploads && id && !named) || (named && verb == "PUT" && !numbered) ||
    (named && (verb == "POST" || verb == "DELETE") && part) || (!uploads && !id && part && verb == "PUT")
  }

  ghost predicate Invalid(verb: string, pairs: seq<Pair>) {
    Wrong(verb, Unambiguous(pairs), Has(pairs, "uploads"), Has(pairs, "uploadId"), Has(pairs, "partNumber"),
          NamesSome(pairs), NumbersSome(pairs))
  }

  lemma RouteRefuses(verb: string, q: Reading)
    ensures var named := !q.uploads && q.hasId && OrEmpty(q.id) != "";
            var wrong := Wrong(verb, !q.repeated, q.uploads, q.hasId, q.hasPart, named, PartNumber(q.part).Some?);
            (Route(verb, q) == Failure(InvalidArgument) <==> !q.unsupported && wrong) &&
            (Route(verb, q) == Failure(NotImplemented) <==>
               q.unsupported ||
               (!wrong && ((q.uploads && verb != "POST") || (named && verb !in {"PUT", "POST", "DELETE"}) ||
                           (!q.uploads && !q.hasId && q.hasPart && verb != "PUT"))))
  {
  }

  /** When a request is refused as invalid, and when as not implemented. */
  lemma RefusedExactlyWhen(verb: string, query: string, copySource: bool)
    ensures var r, pairs := Classify(verb, query, copySource), Pairs(query);
            (r == Failure(InvalidArgument) <==> Implemented(pairs, copySource) && Invalid(verb, pairs)) &&
            (r == Failure(NotImplemented) <==>
               !Implemented(pairs, copySource) ||
               (!Invalid(verb, pairs) &&
                ((Has(pairs, "uploads") && verb != "POST") ||
                 (NamesSome(pairs) && verb !in {"PUT", "POST", "DELETE"}) ||
                 (IsPartRequest(pairs) && verb != "PUT"))))
  {
    RouteRefuses(verb, Read(query));
    ReadingTells(query);
    if !Read(query).repeated {
      ReadingNamesSome(Read(query), Pairs(query));
    }
  }

  /** A part number and nothing else. */
  predicate IsPartRequest(pairs: seq<Pair>) {
    !Has(pairs, "uploads") && !Has(pairs, "uploadId") && Has(pairs, "partNumber")
  }

  /** Decimal digits after at most one sign. */
  ghost predicate Numeral(s: string, sign: string, digits: string) {
    s == sign + digits && (sign == "" || sign == "+" || sign == "-") && digits != "" && Digits(digits)
  }

  function NumeralValue(sign: string, digits: string): int
    requires Digits(digits)
  {
    var magnitude: int := Decimal(digits);
    if sign == "-" then -magnitude else magnitude
  }

  predicate Int32(n: int) {
    -0x8000_0000 <= n <= 0x7fff_ffff
  }

  lemma ParsedIsNumeral(s: string, n: int) returns (sign: string, digits: string)
    requires ParseI32(s) == Some(n)
    ensures Numeral(s, sign, digits) && n == NumeralValue(sign, digits) && Int32(n)
  {
    var signed := s[0] == '+' || s[0] == '-';
    sign, digits := if signed then s[..1] else "", if signed then s[1..] else s;
    assert s == sign + digits;
  }

  lemma NumeralIsParsed(s: string, sign: string, digits: string)
    requires Numeral(s, sign, digits) && Int32(NumeralValue(sign, digits))
    ensures ParseI32(s) == Some(NumeralValue(sign, digits))
  {
    if sign == "" {
      assert s == digits && '0' <= s[0] <= '9';
    } else {
      assert s[1..] == digits && s[0] == sign[0];
    }
  }

  /** A part number's text is a decimal numeral within 32 bits. */
  lemma ParsedExactlyWhen(s: string, n: int)
    ensures ParseI32(s) == Some(n) <==>
            Int32(n) && exists sign, digits :: Numeral(s, sign, digits) && n == NumeralValue(sign, digits)
  {
    if ParseI32(s) == Some(n) {
      var sign, digits := ParsedIsNumeral(s, n);
    }
    if Int32(n) && exists sign, digits :: Numeral(s, sign, digits) && n == NumeralValue(sign, digits) {
      var sign, digits :| Numeral(s, sign, digits) && n == NumeralValue(sign, digits);
      NumeralIsParsed(s, sign, digits);
    }
  }
}
