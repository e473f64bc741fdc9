/** Importing a FileGate snapshot: what validation guarantees about files and their locations, and
    why re-encrypting the credentials under another key does not change what is compared. */
module Migration {
  import opened Wrappers
  import opened Text
  import opened Sorting

  datatype Value = Null | Text(s: string) | Other(n: int)
  type Row = map<string, Value>
  type Bytes = seq<Byte>

  /** A missing column reads as null. */
  function At(row: Row, column: string): Value {
    if column in row then row[column] else Null
  }

  // ---- hexadecimal columns ----

  function HexEncode(b: Bytes): string {
    if b == [] then "" else [HexDigit(b[0] / 16, 'a'), HexDigit(b[0] % 16, 'a')] + HexEncode(b[1..])
  }

  function HexDecode(s: string): Option<Bytes> {
    if s == "" then Some([])
    else if |s| == 1 then None
    else
      var hi, lo, rest := HexValue(s[0]), HexValue(s[1]), HexDecode(s[2..]);
      if hi.None? || lo.None? || rest.None? then None
      else
        var byte: Byte := hi.value * 16 + lo.value;
        Some([byte] + rest.value)
  }

  lemma {:induction false} HexRoundTrip(b: Bytes)
    ensures HexDecode(HexEncode(b)) == Some(b)
  {
    if b != [] {
      HexRoundTrip(b[1..]);
      assert HexEncode(b)[2..] == HexEncode(b[1..]);
      assert b == [b[0]] + b[1..];
    }
  }

  function Column(b: Bytes): Value {
    Text("\\x" + HexEncode(b))
  }

  function Bytea(v: Value): Option<Bytes> {
    if v.Text? && |v.s| >= 2 && v.s[..2] == "\\x" then HexDecode(v.s[2..]) else None
  }

  lemma ColumnRoundTrip(b: Bytes)
    ensures Bytea(Column(b)) == Some(b)
  {
    HexRoundTrip(b);
    assert ("\\x" + HexEncode(b))[2..] == HexEncode(b);
  }

  // ---- credentials ----

  const CIPHERTEXT := "secret_key_ciphertext"
  const NONCE := "secret_key_nonce"
  const KEY_ID := "enc_key_id"

  /** An encryption root: `seal` under the active key with fresh randomness, `open` by key id. */
  datatype Suite = Suite(
    keyId: string, seal: (nat, string, string) -> (Bytes, Bytes),
    open: (string, string, Bytes, Bytes) -> Option<string>)

  ghost predicate Lawful(c: Suite) {
    forall salt, aad, text ::
      c.open(c.keyId, aad, c.seal(salt, aad, text).0, c.seal(salt, aad, text).1) == Some(text)
  }

  function Decrypt(c: Suite, row: Row, identity: string): Option<string> {
    var ciphertext, nonce := Bytea(At(row, CIPHERTEXT)), Bytea(At(row, NONCE));
    if !At(row, KEY_ID).Text? || !At(row, identity).Text? || ciphertext.None? || nonce.None? then None
    else c.open(At(row, KEY_ID).s, At(row, identity).s, ciphertext.value, nonce.value)
  }

  function ReencryptRow(row: Row, source: Suite, target: Suite, identity: string, salt: nat): Option<Row> {
    var text := Decrypt(source, row, identity);
    if text.None? then None
    else
      var sealed := target.seal(salt, At(row, identity).s, text.value);
      Some(row[CIPHERTEXT := Column(sealed.0)][NONCE := Column(sealed.1)][KEY_ID := Text(target.keyId)])
  }

  predicate AllDecrypt(rows: seq<Row>, c: Suite, identity: string) {
    forall i | 0 <= i < |rows| :: Decrypt(c, rows[i], identity).Some?
  }

  /** The rows up to the first that cannot be decrypted, re-encrypted; the others as they were. */
  function Reencrypted(rows: seq<Row>, source: Suite, target: Suite, identity: string): (r: seq<Row>)
    ensures |r| == |rows|
  {
    seq(|rows|, i requires 0 <= i < |rows| =>
      var row := ReencryptRow(rows[i], source, target, identity, i);
      if row.Some? && AllDecrypt(rows[..i], source, identity) then row.value else rows[i])
  }

  /** Rewrites the rows in place; stops at the first row it cannot decrypt. */
  method Reencrypt(rows: array<Row>, source: Suite, target: Suite, identity: string) returns (ok: bool)
    modifies rows
    ensures ok <==> AllDecrypt(old(rows[..]), source, identity)
    ensures rows[..] == Reencrypted(old(rows[..]), source, target, identity)
  {
    ghost var was := rows[..];
    for i := 0 to rows.Length
      invariant AllDecrypt(was[..i], source, identity) && |was| == rows.Length
      invariant forall j | 0 <= j < i :: rows[j] == ReencryptRow(was[j], source, target, identity, j).value
      invariant forall j | i <= j < rows.Length :: rows[j] == was[j]
    {
      var row := ReencryptRow(rows[i], source, target, identity, i);
      if row.None? {
        assert !Decrypt(source, was[i], identity).Some?;
        SameAsSpec(rows[..], was, source, target, identity, i);
        return false;
      }
      rows[i] := row.value;
      assert was[..i + 1] == was[..i] + [was[i]];
    }
    assert was[..rows.Length] == was;
    SameAsSpec(rows[..], was, source, target, identity, rows.Length);
    ok := true;
  }

  lemma SameAsSpec(now: seq<Row>, was: seq<Row>, source: Suite, target: Suite, identity: string, done: nat)
    requires |now| == |was| && done <= |was| && AllDecrypt(was[..done], source, identity)
    requires done < |was| ==> Decrypt(source, was[done], identity).None?
    requires forall j | 0 <= j < done :: now[j] == ReencryptRow(was[j], source, target, identity, j).value
    requires forall j | done <= j < |was| :: now[j] == was[j]
    ensures now == Reencrypted(was, source, target, identity)
  {
    forall i | 0 <= i < |was| ensures now[i] == Reencrypted(was, source, target, identity)[i] {
      if i < done {
        assert was[..done][i] == was[i] && was[..done][..i] == was[..i];
      } else if i > done {
        assert was[..i][done] == was[done];
      }
    }
  }

  // ---- comparing rows ----

  const FINGERPRINT := "secret_fingerprint"

  /** A row cut down to the named columns; a credential is replaced by the digest of its text. */
  function Projected(row: Row, columns: seq<string>, c: Suite, identity: Option<string>, digest: string -> string)
    : Option<Row>
  {
    if exists column | column in columns :: column !in row then None
    else
      var cut: Row := map column | column in columns :: At(row, column);
      if identity.None? then Some(cut)
      else
        var text := Decrypt(c, row, identity.value);
        if text.None? then None
        else Some((cut - {CIPHERTEXT, NONCE, KEY_ID})[FINGERPRINT := Text(digest(text.value))])
  }

  function AllProjected(rows: seq<Row>, columns: seq<string>, c: Suite, identity: Option<string>, digest: string -> string)
    : (r: Option<seq<Row>>)
    ensures r.Some? ==> |r.value| == |rows|
  {
    if forall i | 0 <= i < |rows| :: Projected(rows[i], columns, c, identity, digest).Some?
    then Some(seq(|rows|, i requires 0 <= i < |rows| =>
                var row := Projected(rows[i], columns, c, identity, digest); if row.Some? then row.value else map[]))
    else None
  }

  function Serialized(rows: seq<Row>, text: Row -> string): (r: seq<string>)
    ensures |r| == |rows|
  {
    seq(|rows|, i requires 0 <= i < |rows| => text(rows[i]))
  }

  /** The projected rows as sorted lines of text. */
  function Comparable(rows: seq<Row>, columns: seq<string>, c: Suite, identity: Option<string>,
                      digest: string -> string, text: Row -> string): Option<seq<string>>
  {
    match AllProjected(rows, columns, c, identity, digest)
    case None => None
    case Some(projected) => Some(Sort(Serialized(projected, text), LexLeq))
  }

  /** Projects row by row, failing at the first row that cannot be, and sorts the lines. */
  method CompareLines(rows: seq<Row>, columns: seq<string>, c: Suite, identity: Option<string>,
                      digest: string -> string, text: Row -> string) returns (r: Option<seq<string>>)
    ensures r == Comparable(rows, columns, c, identity, digest, text)
  {
    var lines: seq<string> := [];
    for i := 0 to |rows|
      invariant |lines| == i
      invariant forall j | 0 <= j < i ::
                  var row := Projected(rows[j], columns, c, identity, digest); row.Some? && lines[j] == text(row.value)
    {
      var row := Projected(rows[i], columns, c, identity, digest);
      if row.None? {
        return None;
      }
      lines := lines + [text(row.value)];
    }
    assert lines == Serialized(AllProjected(rows, columns, c, identity, digest).value, text);
    r := Some(Sort(lines, LexLeq));
  }

  ghost predicate Injective(text: Row -> string) {
    forall r: Row, s: Row :: text(r) == text(s) ==> r == s
  }

  lemma LinesAreOrdered()
    ensures TotalOrder(LexLeq)
  {
    forall a: string, b: string ensures (LexLeq(a, b) || LexLeq(b, a)) && (LexLeq(a, b) && LexLeq(b, a) ==> a == b) {
      LexTotal(a, b);
    }
    forall a: string, b: string, c: string | LexLeq(a, b) && LexLeq(b, c) ensures LexLeq(a, c) {
      LexTransitive(a, b, c);
    }
  }

  lemma {:induction false} SerializedCounts(rows: seq<Row>, text: Row -> string, row: Row)
    requires Injective(text)
    ensures multiset(Serialized(rows, text))[text(row)] == multiset(rows)[row]
    ensures forall line | line in Serialized(rows, text) :: exists r :: r in rows && text(r) == line
    decreases |rows|
  {
    if rows != [] {
      var most, last := rows[..|rows| - 1], rows[|rows| - 1];
      SerializedCounts(most, text, row);
      assert rows == most + [last];
      assert Serialized(rows, text) == Serialized(most, text) + [text(last)];
    }
  }

  /** Serialization keeps multisets apart. */
  lemma SerializedIsFaithful(rows: seq<Row>, others: seq<Row>, text: Row -> string)
    requires Injective(text)
    ensures multiset(Serialized(rows, text)) == multiset(Serialized(others, text)) <==> multiset(rows) == multiset(others)
  {
    var lines, lines' := multiset(Serialized(rows, text)), multiset(Serialized(others, text));
    if lines == lines' {
      forall row ensures multiset(rows)[row] == multiset(others)[row] {
        SerializedCounts(rows, text, row);
        SerializedCounts(others, text, row);
      }
    } else if multiset(rows) == multiset(others) {
      forall line ensures lines[line] == lines'[line] {
        SerializedCounts(rows, text, map[]);
        SerializedCounts(others, text, map[]);
        if line in lines || line in lines' {
          var row :| (row in rows || row in others) && text(row) == line;
          SerializedCounts(rows, text, row);
          SerializedCounts(others, text, row);
        }
      }
    }
  }

  /** The row comparison accepts exactly when the projected rows are the same multiset. */
  lemma ComparisonIsMultisetEquality(
      rows: seq<Row>, others: seq<Row>, columns: seq<string>, c: Suite, d: Suite, identity: Option<string>,
      digest: string -> string, text: Row -> string)
    requires Injective(text)
    requires AllProjected(rows, columns, c, identity, digest).Some? && AllProjected(others, columns, d, identity, digest).Some?
    ensures Comparable(rows, columns, c, identity, digest, text) == Comparable(others, columns, d, identity, digest, text) <==>
            multiset(AllProjected(rows, columns, c, identity, digest).value) ==
            multiset(AllProjected(others, columns, d, identity, digest).value)
  {
    var p, q := AllProjected(rows, columns, c, identity, digest).value, AllProjected(others, columns, d, identity, digest).value;
    LinesAreOrdered();
    SortIsCanonical(Serialized(p, text), Serialized(q, text), LexLeq);
    SerializedIsFaithful(p, q, text);
  }

  // ---- what is compared ----

  /** A row that can be compared: every named column is there and its credential can be decrypted. */
  predicate Readable(row: Row, columns: seq<string>, c: Suite, identity: Option<string>) {
    (forall column | column in columns :: column in row) &&
    (identity.Some? ==> Decrypt(c, row, identity.value).Some?)
  }

  /** The columns whose stored values are compared: all that are named, but of a row with a credential
      not its ciphertext, nonce and key id; the digest of the text stands for them. */
  predicate Compared(column: string, columns: seq<string>, identity: Option<string>) {
    column in columns &&
    (identity.Some? ==>
       column !in {"secret_key_ciphertext", "secret_key_nonce", "enc_key_id", "secret_fingerprint"})
  }

  predicate Agree(row: Row, other: Row, columns: seq<string>, c: Suite, d: Suite, identity: Option<string>,
                  digest: string -> string)
    requires Readable(row, columns, c, identity) && Readable(other, columns, d, identity)
  {
    (forall column | column in columns && Compared(column, columns, identity) :: row[column] == other[column]) &&
    (identity.Some? ==>
       digest(Decrypt(c, row, identity.value).value) == digest(Decrypt(d, other, identity.value).value))
  }

  lemma ProjectedExactlyWhen(row: Row, columns: seq<string>, c: Suite, identity: Option<string>, digest: string -> string)
    ensures Projected(row, columns, c, identity, digest).Some? <==> Readable(row, columns, c, identity)
  {
  }

  lemma ProjectedAt(row: Row, columns: seq<string>, c: Suite, identity: Option<string>, digest: string -> string,
                    column: string)
    requires Readable(row, columns, c, identity)
    ensures var cut := Projected(row, columns, c, identity, digest);
            cut.Some? && (column != "secret_fingerprint" || identity.None? ==>
              (column in cut.value <==> Compared(column, columns, identity)) &&
              (column in cut.value ==> cut.value[column] == row[column])) &&
            (identity.Some? ==>
               "secret_fingerprint" in cut.value &&
               cut.value["secret_fingerprint"] == Text(digest(Decrypt(c, row, identity.value).value)))
  {
  }

  /** Two rows are cut down to the same row exactly when they agree on what is compared. */
  lemma SameProjectionExactlyWhenTheyAgree(
      row: Row, other: Row, columns: seq<string>, c: Suite, d: Suite, identity: Option<string>, digest: string -> string)
    requires Readable(row, columns, c, identity) && Readable(other, columns, d, identity)
    ensures Projected(row, columns, c, identity, digest) == Projected(other, columns, d, identity, digest) <==>
            Agree(row, other, columns, c, d, identity, digest)
  {
    ProjectedAt(row, columns, c, identity, digest, "secret_fingerprint");
    ProjectedAt(other, columns, d, identity, digest, "secret_fingerprint");
    var p := Projected(row, columns, c, identity, digest).value;
    var q := Projected(other, columns, d, identity, digest).value;
    forall column
      ensures column != "secret_fingerprint" || identity.None? ==>
                (column in p <==> Compared(column, columns, identity)) && (column in p ==> p[column] == row[column])
      ensures column != "secret_fingerprint" || identity.None? ==>
                (column in q <==> Compared(column, columns, identity)) && (column in q ==> q[column] == other[column])
    {
      ProjectedAt(row, columns, c, identity, digest, column);
      ProjectedAt(other, columns, d, identity, digest, column);
    }
    if p == q {
      forall column | column in columns && Compared(column, columns, identity) ensures row[column] == other[column] {
        assert p[column] == q[column];
      }
    }
    if Agree(row, other, columns, c, d, identity, digest) {
      forall column ensures column in p <==> column in q {
      }
      forall column | column in p ensures p[column] == q[column] {
      }
      assert p == q;
    }
  }

  predicate AllReadable(rows: seq<Row>, columns: seq<string>, c: Suite, identity: Option<string>) {
    forall i | 0 <= i < |rows| :: Readable(rows[i], columns, c, identity)
  }

  /** The rows of the two tables can be paired off so that every pair agrees on what is compared. */
  ghost predicate TablesAgree(rows: seq<Row>, others: seq<Row>, columns: seq<string>, c: Suite, d: Suite,
                              identity: Option<string>, digest: string -> string)
    requires AllReadable(rows, columns, c, identity) && AllReadable(others, columns, d, identity)
  {
    |rows| == |others| &&
    exists partners :: Pairing(partners, |rows|) &&
      forall i | 0 <= i < |rows| :: Agree(rows[i], others[partners[i]], columns, c, d, identity, digest)
  }

  lemma ProjectedRow(rows: seq<Row>, columns: seq<string>, c: Suite, identity: Option<string>, digest: string -> string)
    requires AllReadable(rows, columns, c, identity)
    ensures var cut := AllProjected(rows, columns, c, identity, digest);
            cut.Some? && forall i | 0 <= i < |rows| :: Some(cut.value[i]) == Projected(rows[i], columns, c, identity, digest)
  {
  }

  /** The comparison has an answer exactly for tables whose rows can all be compared. */
  lemma ComparableExactlyWhenReadable(rows: seq<Row>, columns: seq<string>, c: Suite, identity: Option<string>,
                                      digest: string -> string, text: Row -> string)
    ensures Comparable(rows, columns, c, identity, digest, text).Some? <==> AllReadable(rows, columns, c, identity)
  {
    forall i | 0 <= i < |rows|
      ensures Projected(rows[i], columns, c, identity, digest).Some? <==> Readable(rows[i], columns, c, identity)
    {
      ProjectedExactlyWhen(rows[i], columns, c, identity, digest);
    }
  }

  lemma AgreeingProjections(rows: seq<Row>, others: seq<Row>, columns: seq<string>, c: Suite, d: Suite,
                            identity: Option<string>, digest: string -> string, i: nat, j: nat)
    requires AllReadable(rows, columns, c, identity) && AllReadable(others, columns, d, identity)
    requires i < |rows| && j < |others|
    ensures AllProjected(rows, columns, c, identity, digest).value[i] ==
            AllProjected(others, columns, d, identity, digest).value[j] <==>
            Agree(rows[i], others[j], columns, c, d, identity, digest)
  {
    ProjectedRow(rows, columns, c, identity, digest);
    ProjectedRow(others, columns, d, identity, digest);
    SameProjectionExactlyWhenTheyAgree(rows[i], others[j], columns, c, d, identity, digest);
  }

  lemma SameProjectionsExactlyWhenTablesAgree(
      rows: seq<Row>, others: seq<Row>, columns: seq<string>, c: Suite, d: Suite, identity: Option<string>,
      digest: string -> string)
    requires AllReadable(rows, columns, c, identity) && AllReadable(others, columns, d, identity)
    ensures AllProjected(rows, columns, c, identity, digest).Some? && AllProjected(others, columns, d, identity, digest).Some?
    ensures multiset(AllProjected(rows, columns, c, identity, digest).value) ==
            multiset(AllProjected(others, columns, d, identity, digest).value) <==>
            TablesAgree(rows, others, columns, c, d, identity, digest)
  {
    ProjectedRow(rows, columns, c, identity, digest);
    ProjectedRow(others, columns, d, identity, digest);
    var p, q := AllProjected(rows, columns, c, identity, digest).value, AllProjected(others, columns, d, identity, digest).value;
    if multiset(p) == multiset(q) {
      var partners := SameMultisetPairs(p, q);
      forall i | 0 <= i < |rows| ensures Agree(rows[i], others[partners[i]], columns, c, d, identity, digest) {
        AgreeingProjections(rows, others, columns, c, d, identity, digest, i, partners[i]);
      }
    }
    if TablesAgree(rows, others, columns, c, d, identity, digest) {
      var partners :| Pairing(partners, |rows|) &&
        forall i | 0 <= i < |rows| :: Agree(rows[i], others[partners[i]], columns, c, d, identity, digest);
      forall i | 0 <= i < |rows| ensures p[i] == q[partners[i]] {
        AgreeingProjections(rows, others, columns, c, d, identity, digest, i, partners[i]);
      }
      PairedAreSameMultiset(p, q, partners);
    }
  }

  /** The row comparison accepts exactly when the rows can be paired off so that each pair agrees on
      every named column, and on the digest of its credential instead of the encrypted columns. */
  lemma ComparisonAcceptsExactlyWhenTablesAgree(
      rows: seq<Row>, others: seq<Row>, columns: seq<string>, c: Suite, d: Suite, identity: Option<string>,
      digest: string -> string, text: Row -> string)
    requires Injective(text) && AllReadable(rows, columns, c, identity) && AllReadable(others, columns, d, identity)
    ensures Comparable(rows, columns, c, identity, digest, text) == Comparable(others, columns, d, identity, digest, text) <==>
            TablesAgree(rows, others, columns, c, d, identity, digest)
  {
    SameProjectionsExactlyWhenTablesAgree(rows, others, columns, c, d, identity, digest);
    ComparisonIsMultisetEquality(rows, others, columns, c, d, identity, digest, text);
  }

  lemma RowKeepsItsProjection(
      row: Row, columns: seq<string>, source: Suite, target: Suite, identity: string, salt: nat, digest: string -> string)
    requires Lawful(target) && identity !in {CIPHERTEXT, NONCE, KEY_ID} && Decrypt(source, row, identity).Some?
    ensures Projected(ReencryptRow(row, source, target, identity, salt).value, columns, target, Some(identity), digest) ==
            Projected(row, columns, source, Some(identity), digest)
  {
    var text := Decrypt(source, row, identity).value;
    var sealed := target.seal(salt, At(row, identity).s, text);
    var after := ReencryptRow(row, source, target, identity, salt).value;
    ColumnRoundTrip(sealed.0);
    ColumnRoundTrip(sealed.1);
    assert Decrypt(target, after, identity) == Some(text);
    assert forall column :: column in after <==> column in row;
    if forall column | column in columns :: column in row {
      var cut: Row := map column | column in columns :: At(row, column);
      var cut': Row := map column | column in columns :: At(after, column);
      assert cut - {CIPHERTEXT, NONCE, KEY_ID} == cut' - {CIPHERTEXT, NONCE, KEY_ID};
    }
  }

  /** Re-encrypting under another key does not change what is compared: what the rows say under the
      target key afterwards is what they said under the source key before. */
  lemma ReencryptionKeepsTheComparison(
      rows: seq<Row>, columns: seq<string>, source: Suite, target: Suite, identity: string,
      digest: string -> string, text: Row -> string)
    requires Lawful(target) && identity !in {CIPHERTEXT, NONCE, KEY_ID} && AllDecrypt(rows, source, identity)
    ensures Comparable(Reencrypted(rows, source, target, identity), columns, target, Some(identity), digest, text) ==
            Comparable(rows, columns, source, Some(identity), digest, text)
  {
    var after := Reencrypted(rows, source, target, identity);
    forall i | 0 <= i < |rows|
      ensures Projected(after[i], columns, target, Some(identity), digest) ==
              Projected(rows[i], columns, source, Some(identity), digest)
    {
      RowKeepsItsProjection(rows[i], columns, source, target, identity, i, digest);
    }
    if AllProjected(rows, columns, source, Some(identity), digest).Some? {
      assert AllProjected(after, columns, target, Some(identity), digest).value ==
             AllProjected(rows, columns, source, Some(identity), digest).value;
    }
  }

  // ---- validation ----

  datatype Snapshot = Snapshot(format: string, tables: map<string, seq<Row>>)

  datatype Refusal =
    | UnsupportedFormat | TableSetDiffers | OwnersRemain | FsStorage | PendingFiles | IssuedLeases
    | FileIdMissing | LocationIdMissing | CleanupLocations | DuplicateLocation | MissingLocation

  const TABLES := ["storages", "clients", "client_keys", "s3_credentials", "files", "locations", "leases",
                   "lease_parts", "s3_keys", "lease_history", "usage_snapshot"]
  const OWNERS := ["s3_uploads", "native_multipart_completions"]

  function Rows(s: Snapshot, table: string): seq<Row> {
    if table in s.tables then s.tables[table] else []
  }

  predicate IsActive(file: Row) {
    At(file, "state") == Text("active")
  }

  predicate HasId(file: Row, id: string) {
    At(file, "id") == Text(id)
  }

  /** The file a map from ids to rows ends up with: of repeated ids, the last row. */
  function LastFile(files: seq<Row>, id: string): Option<Row> {
    if files == [] then None
    else if HasId(files[|files| - 1], id) then Some(files[|files| - 1])
    else LastFile(files[..|files| - 1], id)
  }

  predicate ActiveId(files: seq<Row>, id: string) {
    LastFile(files, id).Some? && IsActive(LastFile(files, id).value)
  }

  predicate HeaderOk(s: Snapshot) {
    s.format == "filegate-0.4.1-v1" && |s.tables| == |TABLES| + |OWNERS| &&
    (forall t | t in TABLES + OWNERS :: t in s.tables) && (forall t | t in OWNERS :: Rows(s, t) == [])
  }

  predicate Drained(s: Snapshot) {
    (forall i | 0 <= i < |Rows(s, "storages")| :: At(Rows(s, "storages")[i], "kind") == Text("s3")) &&
    (forall i | 0 <= i < |Rows(s, "files")| :: At(Rows(s, "files")[i], "state") != Text("pending")) &&
    (forall i | 0 <= i < |Rows(s, "leases")| :: At(Rows(s, "leases")[i], "state") != Text("issued"))
  }

  predicate FilesNamed(files: seq<Row>) {
    forall i | 0 <= i < |files| :: At(files[i], "id").Text?
  }

  /** Locations name distinct active ids, each once. */
  predicate LocationsOk(files: seq<Row>, locations: seq<Row>) {
    (forall i | 0 <= i < |locations| ::
       At(locations[i], "file_id").Text? && ActiveId(files, At(locations[i], "file_id").s)) &&
    (forall i, j | 0 <= i < j < |locations| :: At(locations[i], "file_id") != At(locations[j], "file_id"))
  }

  predicate Located(locations: seq<Row>, id: string) {
    exists i :: 0 <= i < |locations| && At(locations[i], "file_id") == Text(id)
  }

  ghost predicate Validated(s: Snapshot) {
    HeaderOk(s) && Drained(s) && FilesNamed(Rows(s, "files")) &&
    LocationsOk(Rows(s, "files"), Rows(s, "locations")) &&
    forall id | ActiveId(Rows(s, "files"), id) :: Located(Rows(s, "locations"), id)
  }

  /** What a refusal says about the snapshot. */
  ghost predicate Explains(s: Snapshot, refusal: Refusal) {
    var files, locations := Rows(s, "files"), Rows(s, "locations");
    match refusal
    case UnsupportedFormat => s.format != "filegate-0.4.1-v1"
    case TableSetDiffers => |s.tables| != |TABLES| + |OWNERS| || exists t | t in TABLES + OWNERS :: t !in s.tables
    case OwnersRemain => exists t | t in OWNERS :: Rows(s, t) != []
    case FsStorage => exists row | row in Rows(s, "storages") :: At(row, "kind") != Text("s3")
    case PendingFiles => exists row | row in files :: At(row, "state") == Text("pending")
    case IssuedLeases => exists row | row in Rows(s, "leases") :: At(row, "state") == Text("issued")
    case _ => ExplainsFiles(files, locations, refusal)
  }

  ghost predicate ExplainsFiles(files: seq<Row>, locations: seq<Row>, refusal: Refusal) {
    match refusal
    case FileIdMissing => exists row | row in files :: !At(row, "id").Text?
    case LocationIdMissing => exists row | row in locations :: !At(row, "file_id").Text?
    case CleanupLocations =>
      exists row | row in locations :: At(row, "file_id").Text? && !ActiveId(files, At(row, "file_id").s)
    case DuplicateLocation =>
      exists i, j | 0 <= i < j < |locations| :: At(locations[i], "file_id") == At(locations[j], "file_id")
    case MissingLocation => exists id :: ActiveId(files, id) && !Located(locations, id)
    case _ => false
  }

  method IndexFiles(files: seq<Row>) returns (byId: Option<map<string, Row>>)
    ensures byId.Some? <==> FilesNamed(files)
    ensures byId.Some? ==> forall id :: (id in byId.value <==> LastFile(files, id).Some?) &&
                                        (id in byId.value ==> byId.value[id] == LastFile(files, id).value)
  {
    var index: map<string, Row> := map[];
    for i := 0 to |files|
      invariant FilesNamed(files[..i])
      invariant forall id :: (id in index <==> LastFile(files[..i], id).Some?) &&
                             (id in index ==> index[id] == LastFile(files[..i], id).value)
    {
      if !At(files[i], "id").Text? {
        return None;
      }
      assert files[..i + 1][..i] == files[..i];
      index := index[At(files[i], "id").s := files[i]];
    }
    assert files[..|files|] == files;
    byId := Some(index);
  }

  method CheckLocations(files: seq<Row>, byId: map<string, Row>, locations: seq<Row>)
    returns (seen: set<string>, refusal: Option<Refusal>)
    requires forall id :: (id in byId <==> LastFile(files, id).Some?) && (id in byId ==> byId[id] == LastFile(files, id).value)
    ensures refusal.None? <==> LocationsOk(files, locations)
    ensures refusal.None? ==> forall id :: id in seen <==> Located(locations, id)
    ensures refusal.Some? ==> ExplainsFiles(files, locations, refusal.value)
  {
    seen := {};
    for i := 0 to |locations|
      invariant LocationsOk(files, locations[..i])
      invariant forall id :: id in seen <==> exists j :: 0 <= j < i && At(locations[j], "file_id") == Text(id)
    {
      var id := At(locations[i], "file_id");
      if !id.Text? {
        return seen, Some(LocationIdMissing);
      }
      if id.s !in byId || !IsActive(byId[id.s]) {
        return seen, Some(CleanupLocations);
      }
      if id.s in seen {
        return seen, Some(DuplicateLocation);
      }
      seen := seen + {id.s};
    }
    assert locations[..|locations|] == locations;
    refusal := None;
  }

  /** Checks the snapshot in the importer's order. */
  method Validate(s: Snapshot) returns (refusal: Option<Refusal>)
    ensures refusal.None? <==> Validated(s)
    ensures refusal.Some? ==> Explains(s, refusal.value)
  {
    if s.format != "filegate-0.4.1-v1" {
      return Some(UnsupportedFormat);
    }
    if |s.tables| != |TABLES| + |OWNERS| || exists t | t in TABLES + OWNERS :: t !in s.tables {
      return Some(TableSetDiffers);
    }
    if exists t | t in OWNERS :: Rows(s, t) != [] {
      return Some(OwnersRemain);
    }
    if exists i | 0 <= i < |Rows(s, "storages")| :: At(Rows(s, "storages")[i], "kind") != Text("s3") {
      return Some(FsStorage);
    }
    if exists i | 0 <= i < |Rows(s, "files")| :: At(Rows(s, "files")[i], "state") == Text("pending") {
      return Some(PendingFiles);
    }
    if exists i | 0 <= i < |Rows(s, "leases")| :: At(Rows(s, "leases")[i], "state") == Text("issued") {
      return Some(IssuedLeases);
    }
    refusal := ValidateFiles(Rows(s, "files"), Rows(s, "locations"));
  }

  method ValidateFiles(files: seq<Row>, locations: seq<Row>) returns (refusal: Option<Refusal>)
    ensures refusal.None? <==>
            FilesNamed(files) && LocationsOk(files, locations) && forall id | ActiveId(files, id) :: Located(locations, id)
    ensures refusal.Some? ==> ExplainsFiles(files, locations, refusal.value)
  {
    var byId := IndexFiles(files);
    if byId.None? {
      return Some(FileIdMissing);
    }
    var seen;
    seen, refusal := CheckLocations(files, byId.value, locations);
    if refusal.None? && exists id | id in byId.value :: IsActive(byId.value[id]) && id !in seen {
      var id :| id in byId.value && IsActive(byId.value[id]) && id !in seen;
      assert ActiveId(files, id);
      refusal := Some(MissingLocation);
    }
  }

  // ---- what validation means ----

  predicate HasActiveRow(files: seq<Row>, id: Value) {
    exists j :: 0 <= j < |files| && IsActive(files[j]) && At(files[j], "id") == id
  }

  /** Location rows and active file rows correspond one to one through the file id. */
  ghost predicate OneToOne(files: seq<Row>, locations: seq<Row>) {
    (forall i | 0 <= i < |files| && IsActive(files[i]) :: At(files[i], "id").Text? && Located(locations, At(files[i], "id").s)) &&
    (forall i, j | 0 <= i < j < |files| && IsActive(files[i]) && IsActive(files[j]) :: At(files[i], "id") != At(files[j], "id")) &&
    (forall i | 0 <= i < |locations| :: HasActiveRow(files, At(locations[i], "file_id"))) &&
    (forall i, j | 0 <= i < j < |locations| :: At(locations[i], "file_id") != At(locations[j], "file_id"))
  }

  /** No active file row is followed by another row of the same id. */
  predicate ActiveRowsAreLast(files: seq<Row>) {
    forall i, j | 0 <= i < j < |files| && IsActive(files[i]) :: At(files[i], "id") != At(files[j], "id")
  }

  lemma {:induction false} LastFileIsARow(files: seq<Row>, id: string) returns (i: nat)
    requires LastFile(files, id).Some?
    ensures i < |files| && files[i] == LastFile(files, id).value && HasId(files[i], id)
    ensures forall j | i < j < |files| :: !HasId(files[j], id)
  {
    if HasId(files[|files| - 1], id) {
      i := |files| - 1;
    } else {
      i := LastFileIsARow(files[..|files| - 1], id);
    }
  }

  lemma {:induction false} RowGivesLastFile(files: seq<Row>, i: nat, id: string)
    requires i < |files| && HasId(files[i], id)
    ensures LastFile(files, id).Some?
    ensures (forall j | i < j < |files| :: !HasId(files[j], id)) ==> LastFile(files, id) == Some(files[i])
    decreases |files|
  {
    if !HasId(files[|files| - 1], id) {
      RowGivesLastFile(files[..|files| - 1], i, id);
    }
  }

  /** For every accepted snapshot the file ids of locations are distinct and are exactly the ids
      whose last file row is active. */
  lemma ValidatedLocationsAreTheActiveIds(s: Snapshot, id: string)
    requires Validated(s)
    ensures Located(Rows(s, "locations"), id) <==> ActiveId(Rows(s, "files"), id)
    ensures forall i, j | 0 <= i < j < |Rows(s, "locations")| ::
              At(Rows(s, "locations")[i], "file_id") != At(Rows(s, "locations")[j], "file_id")
  {
  }

  /** For every accepted snapshot location rows and active file rows correspond one to one exactly
      when no active row is followed by a row of the same id; distinct ids are enough. */
  lemma ValidatedIsOneToOneExactlyWhen(s: Snapshot)
    requires Validated(s)
    ensures OneToOne(Rows(s, "files"), Rows(s, "locations")) <==> ActiveRowsAreLast(Rows(s, "files"))
  {
    var files, locations := Rows(s, "files"), Rows(s, "locations");
    if ActiveRowsAreLast(files) {
      forall i | 0 <= i < |files| && IsActive(files[i])
        ensures At(files[i], "id").Text? && Located(locations, At(files[i], "id").s)
      {
        RowGivesLastFile(files, i, At(files[i], "id").s);
        assert ActiveId(files, At(files[i], "id").s);
      }
      forall i | 0 <= i < |locations|
        ensures HasActiveRow(files, At(locations[i], "file_id"))
      {
        var j := LastFileIsARow(files, At(locations[i], "file_id").s);
        assert IsActive(files[j]) && At(files[j], "id") == At(locations[i], "file_id");
      }
      assert OneToOne(files, locations);
    } else {
      var i, j :| 0 <= i < j < |files| && IsActive(files[i]) && At(files[i], "id") == At(files[j], "id");
      var id := At(files[i], "id").s;
      RowGivesLastFile(files, j, id);
      var k := LastFileIsARow(files, id);
      if !IsActive(files[k]) {
        ValidatedLocationsAreTheActiveIds(s, id);
        assert !Located(locations, id);
      }
      assert !OneToOne(files, locations);
    }
  }

  /** All tables empty but these two. */
  function Tables(files: seq<Row>, locations: seq<Row>): map<string, seq<Row>> {
    map t | t in TABLES + OWNERS :: if t == "files" then files else if t == "locations" then locations else []
  }

  lemma {:induction false} DistinctKeys(m: map<string, seq<Row>>, keys: seq<string>)
    requires (forall i, j | 0 <= i < j < |keys| :: keys[i] != keys[j]) && m.Keys == set i | 0 <= i < |keys| :: keys[i]
    ensures |m| == |keys|
    decreases |keys|
  {
    assert |m| == |m.Keys|;
    if keys == [] {
      assert m.Keys == {};
    } else {
      var most, last := keys[..|keys| - 1], keys[|keys| - 1];
      assert last in m.Keys;
      assert (m - {last}).Keys == m.Keys - {last};
      DistinctKeys(m - {last}, most);
    }
  }

  lemma TableNamesDiffer()
    ensures forall i, j | 0 <= i < j < |TABLES + OWNERS| :: (TABLES + OWNERS)[i] != (TABLES + OWNERS)[j]
  {
    var names := TABLES + OWNERS;
    forall i, j | 0 <= i < j < |names| ensures names[i] != names[j] {
      assert |names[i]| != |names[j]| || names[i][0] != names[j][0];
    }
  }

  lemma TablesAreComplete(files: seq<Row>, locations: seq<Row>)
    ensures HeaderOk(Snapshot("filegate-0.4.1-v1", Tables(files, locations)))
  {
    TableNamesDiffer();
    var names := TABLES + OWNERS;
    assert Tables(files, locations).Keys == set i | 0 <= i < |names| :: names[i];
    DistinctKeys(Tables(files, locations), names);
    forall t | t in OWNERS ensures Rows(Snapshot("filegate-0.4.1-v1", Tables(files, locations)), t) == [] {
      assert |t| == 10 || |t| == 28;
    }
  }

  lemma RowsOfTables(files: seq<Row>, locations: seq<Row>)
    ensures var s := Snapshot("filegate-0.4.1-v1", Tables(files, locations));
            Rows(s, "files") == files && Rows(s, "locations") == locations &&
            Rows(s, "storages") == [] && Rows(s, "leases") == []
  {
    assert |"storages"| == 8 && |"leases"| == 6 && |"files"| == 5 && |"locations"| == 9;
  }

  const TWICE: Row := map["id" := Text("1"), "state" := Text("active")]
  const ONCE: Row := map["file_id" := Text("1")]

  lemma TwiceIsLocated()
    ensures FilesNamed([TWICE, TWICE]) && LocationsOk([TWICE, TWICE], [ONCE]) && !ActiveRowsAreLast([TWICE, TWICE])
    ensures forall id | ActiveId([TWICE, TWICE], id) :: Located([ONCE], id)
  {
    var files := [TWICE, TWICE];
    RowGivesLastFile(files, 1, "1");
    forall id | ActiveId(files, id) ensures Located([ONCE], id) {
      var i := LastFileIsARow(files, id);
      assert At([ONCE][0], "file_id") == Text(id);
    }
    assert At(files[0], "id") == At(files[1], "id");
  }

  /** An accepted snapshot with two active file rows of one id and one location row between them. */
  lemma RepeatedIdsAreAccepted()
    ensures var s := Snapshot("filegate-0.4.1-v1", Tables([TWICE, TWICE], [ONCE]));
            Validated(s) && !OneToOne(Rows(s, "files"), Rows(s, "locations"))
  {
    TablesAreComplete([TWICE, TWICE], [ONCE]);
    RowsOfTables([TWICE, TWICE], [ONCE]);
    TwiceIsLocated();
    ValidatedIsOneToOneExactlyWhen(Snapshot("filegate-0.4.1-v1", Tables([TWICE, TWICE], [ONCE])));
  }
}
