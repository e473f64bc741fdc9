/** Embedding independent JSON schemas into one document: local references are rewritten so that
    each still resolves inside its own schema. Pointers follow sections 3 and 4 of RFC 6901. */
module Relocation {
  import opened Wrappers
  import opened Text

  datatype Json =
    | Null | Bool(b: bool) | Num(n: int) | Str(s: string)
    | Arr(items: seq<Json>) | Obj(fields: map<string, Json>)

  const SCHEMAS := "/" + "components" + "/" + "schemas" + "/"
  const REF := "$ref"

  /** A reference into the document it stands in. */
  predicate Local(v: Json) {
    v.Str? && v.s != "" && v.s[0] == '#'
  }

  function Moved(reference: string, name: string): string
    requires reference != ""
  {
    "#" + SCHEMAS + name + reference[1..]
  }

  function Relocate(v: Json, name: string): Json {
    match v
    case Obj(fields) =>
      Obj(map k | k in fields ::
            if k == REF && Local(fields[k]) then Str(Moved(fields[k].s, name)) else Relocate(fields[k], name))
    case Arr(items) => Arr(seq(|items|, i requires 0 <= i < |items| => Relocate(items[i], name)))
    case _ => v
  }

  // ---- JSON pointers ----

  /** `~1` stands for a slash and `~0` for a tilde; any other tilde is an error. */
  function Unescape(t: string): Option<string> {
    if t == "" then Some("")
    else if t[0] == '~' then
      if |t| < 2 || (t[1] != '0' && t[1] != '1') then None
      else
        match Unescape(t[2..])
        case None => None
        case Some(rest) => Some([if t[1] == '0' then '~' else '/'] + rest)
    else
      match Unescape(t[1..])
      case None => None
      case Some(rest) => Some([t[0]] + rest)
  }

  function UnescapeAll(ts: seq<string>): (r: Option<seq<string>>)
    ensures r.Some? ==> |r.value| == |ts|
  {
    if ts == [] then Some([])
    else
      var first, rest := Unescape(ts[0]), UnescapeAll(ts[1..]);
      if first.None? || rest.None? then None else Some([first.value] + rest.value)
  }

  /** The reference tokens of a pointer; None if it is not a pointer. */
  function Tokens(pointer: string): Option<seq<string>> {
    if pointer == "" then Some([])
    else if pointer[0] != '/' then None
    else UnescapeAll(Split(pointer[1..], '/'))
  }

  predicate ArrayIndex(t: string) {
    t != "" && (t == "0" || t[0] != '0') && Digits(t)
  }

  function Child(v: Json, token: string): Option<Json> {
    match v
    case Obj(fields) => if token in fields then Some(fields[token]) else None
    case Arr(items) =>
      if ArrayIndex(token) && Decimal(token) < |items| then Some(items[Decimal(token)]) else None
    case _ => None
  }

  function Resolve(v: Json, tokens: seq<string>): Option<Json> {
    if tokens == [] then Some(v)
    else
      match Child(v, tokens[0])
      case None => None
      case Some(child) => Resolve(child, tokens[1..])
  }

  function ResolvePointer(document: Json, pointer: string): Option<Json> {
    var tokens := Tokens(pointer);
    if tokens.None? then None else Resolve(document, tokens.value)
  }

  /** Whether the tokens end at the text of a local reference, which relocation rewrites. */
  predicate EndsAtReference(v: Json, tokens: seq<string>) {
    tokens != [] && tokens[|tokens| - 1] == "$ref" &&
    var holder := Resolve(v, tokens[..|tokens| - 1]);
    holder.Some? && holder.value.Obj? && "$ref" in holder.value.fields &&
    var target := holder.value.fields["$ref"];
    target.Str? && target.s != "" && target.s[0] == '#'
  }

  /** What a position of a schema becomes when the schema is embedded. */
  function Image(v: Json, tokens: seq<string>, name: string): Option<Json> {
    match Resolve(v, tokens)
    case None => None
    case Some(target) =>
      if EndsAtReference(v, tokens) && Local(target) then Some(Str(Moved(target.s, name)))
      else Some(Relocate(target, name))
  }

  lemma {:induction false} ResolveSteps(v: Json, tokens: seq<string>)
    requires tokens != []
    ensures Resolve(v, tokens) ==
            match Resolve(v, tokens[..|tokens| - 1])
            case None => None
            case Some(holder) => Child(holder, tokens[|tokens| - 1])
    decreases |tokens|
  {
    if |tokens| > 1 {
      match Child(v, tokens[0])
      case None =>
      case Some(child) =>
        ResolveSteps(child, tokens[1..]);
        assert tokens[1..][..|tokens| - 2] == tokens[..|tokens| - 1][1..];
    }
  }

  /** Relocation commutes with every step down the tree, except into the text of a reference. */
  lemma ChildOfRelocated(v: Json, token: string, name: string)
    ensures Child(Relocate(v, name), token) ==
            match Child(v, token)
            case None => None
            case Some(child) =>
              Some(if v.Obj? && token == REF && Local(child) then Str(Moved(child.s, name)) else Relocate(child, name))
  {
  }

  lemma {:induction false} ResolveRelocated(v: Json, tokens: seq<string>, name: string)
    ensures Resolve(Relocate(v, name), tokens) == Image(v, tokens, name)
    decreases |tokens|
  {
    if tokens != [] {
      var most, last := tokens[..|tokens| - 1], tokens[|tokens| - 1];
      ResolveRelocated(v, most, name);
      ResolveSteps(v, tokens);
      ResolveSteps(Relocate(v, name), tokens);
      match Resolve(v, most)
      case None =>
      case Some(holder) =>
        ChildOfRelocated(holder, last, name);
        if EndsAtReference(v, most) && Local(holder) {
          assert Child(Str(Moved(holder.s, name)), last) == None;
        }
    }
  }

  // ---- what relocation leaves alone ----

  /** The same kind of value with the same members; a scalar is the same value. */
  predicate SameNode(v: Json, w: Json) {
    match v
    case Obj(fields) => w.Obj? && w.fields.Keys == fields.Keys
    case Arr(items) => w.Arr? && |w.items| == |items|
    case _ => w == v
  }

  lemma NodeIsKept(v: Json, name: string)
    ensures SameNode(v, Relocate(v, name))
  {
  }

  lemma ReferenceIsMoved(v: Json, tokens: seq<string>, name: string)
    requires EndsAtReference(v, tokens)
    ensures var before, after := Resolve(v, tokens), Resolve(Relocate(v, name), tokens);
            before.Some? && before.value.Str? && before.value.s != "" && before.value.s[0] == '#' &&
            after == Some(Str("#/components/schemas/" + name + before.value.s[1..]))
  {
    ResolveSteps(v, tokens);
    ResolveRelocated(v, tokens, name);
    var before := Resolve(v, tokens).value.s;
    assert Local(Resolve(v, tokens).value);
    assert Moved(before, name) == "#/components/schemas/" + name + before[1..];
  }

  /** Position by position: objects keep their keys, arrays their length and scalars their value. Only
      the text of a local reference changes, and it becomes the pointer below the schema's own name. */
  lemma RelocationKeepsEverythingElse(v: Json, tokens: seq<string>, name: string)
    ensures var before, after := Resolve(v, tokens), Resolve(Relocate(v, name), tokens);
            (after.None? <==> before.None?) &&
            (before.Some? ==>
               if EndsAtReference(v, tokens)
               then before.value.Str? && before.value.s != "" && before.value.s[0] == '#' &&
                    after.value == Str("#/components/schemas/" + name + before.value.s[1..])
               else SameNode(before.value, after.value))
  {
    if EndsAtReference(v, tokens) {
      ReferenceIsMoved(v, tokens, name);
    } else {
      ResolveRelocated(v, tokens, name);
      if Resolve(v, tokens).Some? {
        NodeIsKept(Resolve(v, tokens).value, name);
      }
    }
  }

  lemma EveryIndexHasAToken(n: nat)
    ensures ArrayIndex(DecimalText(n)) && Decimal(DecimalText(n)) == n
  {
    DecimalReadsBack(n);
  }

  // a pointer token is read back from its escaped form
  function Escape(t: string): string {
    if t == "" then ""
    else (if t[0] == '~' then "~0" else if t[0] == '/' then "~1" else [t[0]]) + Escape(t[1..])
  }

  lemma {:induction false} UnescapeReadsBack(t: string)
    ensures Unescape(Escape(t)) == Some(t)
  {
    if t != "" {
      UnescapeReadsBack(t[1..]);
      assert t == [t[0]] + t[1..];
      if t[0] == '~' || t[0] == '/' {
        assert Escape(t)[2..] == Escape(t[1..]);
      } else {
        assert Escape(t)[1..] == Escape(t[1..]);
      }
    }
  }

  lemma ReferenceBelow(v: Json, token: string, child: Json, tokens: seq<string>)
    requires Child(v, token) == Some(child) && EndsAtReference(child, tokens)
    ensures EndsAtReference(v, [token] + tokens)
  {
    var all := [token] + tokens;
    assert all[..|all| - 1] == [token] + tokens[..|tokens| - 1];
    assert ([token] + tokens[..|tokens| - 1])[1..] == tokens[..|tokens| - 1];
  }

  lemma {:induction false} WithoutReferencesNothingMoves(v: Json, name: string)
    requires forall tokens :: !EndsAtReference(v, tokens)
    ensures Relocate(v, name) == v
  {
    match v
    case Obj(fields) =>
      if REF in fields && Local(fields[REF]) {
        assert [REF][..0] == [] && EndsAtReference(v, [REF]);
      }
      forall k | k in fields ensures Relocate(fields[k], name) == fields[k] {
        forall tokens ensures !EndsAtReference(fields[k], tokens) {
          if EndsAtReference(fields[k], tokens) { ReferenceBelow(v, k, fields[k], tokens); }
        }
        WithoutReferencesNothingMoves(fields[k], name);
      }
    case Arr(items) =>
      forall i | 0 <= i < |items| ensures Relocate(items[i], name) == items[i] {
        EveryIndexHasAToken(i);
        forall tokens ensures !EndsAtReference(items[i], tokens) {
          if EndsAtReference(items[i], tokens) { ReferenceBelow(v, DecimalText(i), items[i], tokens); }
        }
        WithoutReferencesNothingMoves(items[i], name);
      }
    case _ =>
  }

  /** Relocation leaves a schema as it is exactly when no local reference stands anywhere in it. */
  lemma RelocationChangesNothingExactlyWithoutReferences(v: Json, name: string)
    ensures Relocate(v, name) == v <==> forall tokens :: !EndsAtReference(v, tokens)
  {
    if forall tokens :: !EndsAtReference(v, tokens) {
      WithoutReferencesNothingMoves(v, name);
    } else {
      var tokens :| EndsAtReference(v, tokens);
      RelocationKeepsEverythingElse(v, tokens, name);
      ResolveSteps(v, tokens);
      var before := Resolve(v, tokens).value.s;
      assert |"#/components/schemas/" + name + before[1..]| > |before|;
    }
  }

  // ---- references of an embedded schema ----

  /** A component name that needs no escaping in a pointer. */
  predicate Plain(name: string) {
    '/' !in name && '~' !in name
  }

  function Home(name: string): seq<string> {
    ["components", "schemas", name]
  }

  lemma {:induction false} UnescapePlain(t: string)
    requires '~' !in t
    ensures Unescape(t) == Some(t)
  {
    if t != "" {
      UnescapePlain(t[1..]);
      assert t == [t[0]] + t[1..];
    }
  }

  lemma {:induction false} UnescapeShortens(t: string)
    ensures Unescape(t).Some? ==> |Unescape(t).value| <= |t| && ('~' in t ==> |Unescape(t).value| < |t|)
    ensures Unescape(t).Some? && t != "" ==> Unescape(t).value != ""
  {
    if t != "" {
      if t[0] == '~' {
        if |t| >= 2 { UnescapeShortens(t[2..]); }
      } else {
        UnescapeShortens(t[1..]);
        assert t == [t[0]] + t[1..];
      }
    }
  }

  lemma {:induction false} UnescapeKeepsPrefix(a: string, b: string)
    requires '~' !in a
    ensures Unescape(a + b).Some? <==> Unescape(b).Some?
    ensures Unescape(b).Some? ==> Unescape(a + b).value == a + Unescape(b).value
  {
    if a == "" {
      assert a + b == b;
    } else {
      UnescapeKeepsPrefix(a[1..], b);
      UnescapeStep(a[0], a[1..] + b);
      assert a + b == [a[0]] + (a[1..] + b);
    }
  }

  lemma UnescapeStep(c: char, rest: string)
    requires c != '~'
    ensures Unescape([c] + rest) == match Unescape(rest) case None => None case Some(r) => Some([c] + r)
  {
    assert ([c] + rest)[1..] == rest;
  }

  lemma UnescapeCons(t: string, ts: seq<string>)
    ensures UnescapeAll([t] + ts) ==
            if Unescape(t).None? || UnescapeAll(ts).None? then None
            else Some([Unescape(t).value] + UnescapeAll(ts).value)
  {
    assert ([t] + ts)[1..] == ts;
  }

  /** One plain token in front. */
  lemma TokenInFront(t: string, rest: string)
    requires Plain(t)
    ensures UnescapeAll(Split(t + "/" + rest, '/')) ==
            match UnescapeAll(Split(rest, '/'))
            case None => None
            case Some(ts) => Some([t] + ts)
  {
    SplitFirst(t, rest, '/');
    UnescapePlain(t);
    UnescapeCons(t, Split(rest, '/'));
  }

  lemma TokensAfterSlash(text: string)
    ensures Tokens("/" + text) == UnescapeAll(Split(text, '/'))
  {
    assert ("/" + text)[1..] == text;
  }

  lemma PathRegroups(a: string, b: string, rest: string)
    ensures "/" + a + "/" + b + "/" + rest == "/" + (a + "/" + (b + "/" + rest))
  {
  }

  lemma TwoTokensInFront(a: string, b: string, rest: string)
    requires Plain(a) && Plain(b)
    ensures Tokens("/" + (a + "/" + (b + "/" + rest))) ==
            match UnescapeAll(Split(rest, '/'))
            case None => None
            case Some(ts) => Some([a, b] + ts)
  {
    TokensAfterSlash(a + "/" + (b + "/" + rest));
    TokenInFront(a, b + "/" + rest);
    TokenInFront(b, rest);
    var tail := UnescapeAll(Split(rest, '/'));
    if tail.Some? {
      assert [a] + ([b] + tail.value) == [a, b] + tail.value;
    }
  }

  /** The tokens of a pointer below the schemas table: the two fixed steps, then the rest. */
  lemma TokensBelowSchemas(rest: string)
    ensures Tokens(SCHEMAS + rest) ==
            match UnescapeAll(Split(rest, '/'))
            case None => None
            case Some(ts) => Some(["components", "schemas"] + ts)
  {
    TwoTokensInFront("components", "schemas", rest);
    PathRegroups("components", "schemas", rest);
  }

  /** A rewritten pointer has the tokens of the original one, below the schema's own place. */
  lemma TokensOfMoved(name: string, pointer: string)
    requires Plain(name) && (pointer == "" || pointer[0] == '/')
    ensures Tokens(SCHEMAS + name + pointer) ==
            match Tokens(pointer)
            case None => None
            case Some(ts) => Some(Home(name) + ts)
  {
    assert SCHEMAS + name + pointer == SCHEMAS + (name + pointer);
    TokensBelowSchemas(name + pointer);
    if pointer == "" {
      UnescapePlain(name);
      SplitFirst(name, "", '/');
      UnescapeCons(name, []);
      assert name + pointer == name && [name] + [] == [name];
      assert ["components", "schemas"] + [name] == Home(name) + [];
    } else {
      assert name + pointer == name + "/" + pointer[1..];
      TokenInFront(name, pointer[1..]);
      assert forall ts: seq<string> :: ["components", "schemas"] + ([name] + ts) == Home(name) + ts;
    }
  }

  lemma {:induction false} ResolveAppends(v: Json, ts: seq<string>, us: seq<string>)
    ensures Resolve(v, ts + us) == match Resolve(v, ts) case None => None case Some(w) => Resolve(w, us)
  {
    if ts == [] {
      assert ts + us == us;
    } else {
      assert (ts + us)[1..] == ts[1..] + us;
      match Child(v, ts[0])
      case None =>
      case Some(child) => ResolveAppends(child, ts[1..], us);
    }
  }

  /** The schema stands, relocated, under its name in the document. */
  predicate Embedded(document: Json, schema: Json, name: string) {
    Resolve(document, Home(name)) == Some(Relocate(schema, name))
  }

  /** Resolving a rewritten reference in the assembled document gives the image of what the
      original resolved to in the schema alone, for every pointer, resolvable or not. */
  lemma RelocationCommutesWithResolution(document: Json, schema: Json, name: string, pointer: string)
    requires Plain(name) && Embedded(document, schema, name) && (pointer == "" || pointer[0] == '/')
    ensures ResolvePointer(document, Moved("#" + pointer, name)[1..]) ==
            match Tokens(pointer)
            case None => None
            case Some(ts) => Image(schema, ts, name)
  {
    assert Moved("#" + pointer, name)[1..] == SCHEMAS + name + pointer;
    TokensOfMoved(name, pointer);
    match Tokens(pointer)
    case None =>
    case Some(ts) =>
      ResolveAppends(document, Home(name), ts);
      ResolveRelocated(schema, ts, name);
  }

  /** In particular a reference to a subschema - anything but a bare string - resolves to the
      relocation of that subschema, and a dangling one stays dangling. */
  lemma SubschemasResolveToTheirRelocation(document: Json, schema: Json, name: string, pointer: string)
    requires Plain(name) && Embedded(document, schema, name) && (pointer == "" || pointer[0] == '/')
    requires ResolvePointer(schema, pointer).Some? ==> !ResolvePointer(schema, pointer).value.Str?
    ensures ResolvePointer(document, Moved("#" + pointer, name)[1..]) ==
            match ResolvePointer(schema, pointer)
            case None => None
            case Some(target) => Some(Relocate(target, name))
  {
    RelocationCommutesWithResolution(document, schema, name, pointer);
  }

  /** Exactly the names without slash and tilde lead to their own entry. */
  lemma NameLeadsHomeExactlyWhenPlain(name: string)
    ensures Tokens(SCHEMAS + name) == Some(Home(name)) <==> Plain(name)
  {
    TokensBelowSchemas(name);
    if Plain(name) {
      TokensOfMoved(name, "");
      assert SCHEMAS + name + "" == SCHEMAS + name;
      assert Home(name) + [] == Home(name);
    } else if Tokens(SCHEMAS + name) == Some(Home(name)) {
      var ts := UnescapeAll(Split(name, '/')).value;
      assert ts == Home(name)[2..] == [name];
      assert |Split(name, '/')| == 1;
      OnePiece(name);
      UnescapeShortens(name);
      assert false;
    }
  }

  lemma {:induction false} OnePiece(s: string)
    ensures |Split(s, '/')| == 1 ==> '/' !in s && Split(s, '/') == [s]
  {
    if s != "" {
      OnePiece(s[1..]);
      assert s == [s[0]] + s[1..];
    }
  }

  /** A rewritten reference stays in its own schema's subtree exactly when what followed the `#`
      was a pointer. An anchor does not stay: it names a sibling, `name` with the anchor appended. */
  lemma ReferenceStaysHomeExactlyWhenPointer(name: string, fragment: string)
    requires Plain(name) && Tokens(SCHEMAS + name + fragment).Some?
    ensures var ts := Tokens(SCHEMAS + name + fragment).value;
            |ts| >= 3 && (Home(name) <= ts <==> fragment == "" || fragment[0] == '/')
  {
    assert SCHEMAS + name + fragment == SCHEMAS + (name + fragment);
    TokensBelowSchemas(name + fragment);
    if fragment == "" || fragment[0] == '/' {
      TokensOfMoved(name, fragment);
    } else {
      var head := Split(fragment, '/')[0];
      SplitAfterPrefix(name, fragment);
      UnescapeKeepsPrefix(name, head);
      UnescapeCons(name + head, Split(fragment, '/')[1..]);
      UnescapeShortens(head);
      FirstField(fragment, '/');
      assert head != "";
      assert Tokens(SCHEMAS + name + fragment).value[2] == name + Unescape(head).value;
    }
  }

  /** An anchor that needs no escaping leads to the entry of another schema. */
  lemma AnchorLeadsToASibling(name: string, anchor: string)
    requires Plain(name) && Plain(anchor)
    ensures Tokens(SCHEMAS + name + anchor) == Some(Home(name + anchor))
    ensures Tokens(SCHEMAS + "Foo" + "Bar") == Some(Home("FooBar"))
  {
    NameLeadsHomeExactlyWhenPlain(name + anchor);
    assert SCHEMAS + name + anchor == SCHEMAS + (name + anchor);
    NameLeadsHomeExactlyWhenPlain("FooBar");
    assert SCHEMAS + "Foo" + "Bar" == SCHEMAS + "FooBar";
  }

  lemma {:induction false} SplitAfterPrefix(name: string, rest: string)
    requires '/' !in name
    ensures Split(name + rest, '/') == [name + Split(rest, '/')[0]] + Split(rest, '/')[1..]
  {
    if name == "" {
      assert name + rest == rest;
      assert name + Split(rest, '/')[0] == Split(rest, '/')[0];
    } else {
      SplitAfterPrefix(name[1..], rest);
      assert (name + rest)[1..] == name[1..] + rest;
      assert [name[0]] + (name[1..] + Split(rest, '/')[0]) == name + Split(rest, '/')[0];
    }
  }

  /** Every local reference found anywhere in an embedded schema is the rewriting of a local
      reference at the same place of the schema; those that were pointers stay below its own name. */
  lemma ReferencesNeverReachASibling(schema: Json, name: string, at: seq<string>)
    requires Plain(name)
    requires Resolve(Relocate(schema, name), at + [REF]).Some? && Local(Resolve(Relocate(schema, name), at + [REF]).value)
    ensures Resolve(schema, at + [REF]).Some? && Local(Resolve(schema, at + [REF]).value)
    ensures var before, after := Resolve(schema, at + [REF]).value.s, Resolve(Relocate(schema, name), at + [REF]).value.s;
            after == Moved(before, name) &&
            (Tokens(after[1..]).Some? && (before[1..] == "" || before[1] == '/') ==> Home(name) <= Tokens(after[1..]).value)
  {
    ResolveRelocated(schema, at + [REF], name);
    ResolveAppends(schema, at, [REF]);
    assert Resolve(schema, at).value.Obj?;
    assert (at + [REF])[..|at|] == at;
    var before := Resolve(schema, at + [REF]).value.s;
    assert Moved(before, name)[1..] == SCHEMAS + name + before[1..];
    if Tokens(SCHEMAS + name + before[1..]).Some? {
      ReferenceStaysHomeExactlyWhenPointer(name, before[1..]);
    }
  }
}
