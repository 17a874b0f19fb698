/**
 * Naming the unique tokens of a transaction. Every purpose gets a name object; roles are further
 * keys for the same objects; the mint list drops repeated objects, by reference.
 */
module UutNames {
  import opened Wrappers
  import opened OrderedMap
  import opened CharterModel

  const MAX_UUT_NAME := 32

  datatype NameError = NameTooLong | RoleMismatch(role: string)

  // ----- what the maps come to: key to purpose -----

  /** `Object.fromEntries` over the purposes: a repeated purpose leaves one entry. */
  function PurposeMap(purposes: seq<string>, m: Entries<string>): Entries<string>
    decreases |purposes|
  {
    if purposes == [] then m else PurposeMap(purposes[1..], Put(m, purposes[0], purposes[0]))
  }

  /** The loop over the roles; it sees the roles already added. */
  function WithRoles(m: Entries<string>, roles: Entries<string>): Result<Entries<string>, NameError>
    decreases |roles|
  {
    if roles == [] then Ok(m)
    else match Get(m, roles[0].1)
      case None => Err(RoleMismatch(roles[0].0))
      case Some(p) => WithRoles(Put(m, roles[0].0, p), roles[1..])
  }

  function Values<V>(m: Entries<V>): seq<V> {
    if m == [] then [] else [m[0].1] + Values(m[1..])
  }

  /** First occurrences only, in order. */
  function Uniq<T(==)>(s: seq<T>): seq<T> {
    if s == [] then []
    else
      var before := Uniq(s[..|s| - 1]);
      if s[|s| - 1] in before then before else before + [s[|s| - 1]]
  }

  predicate NoRepeats<T(==)>(s: seq<T>) {
    forall i, j :: 0 <= i < j < |s| ==> s[i] != s[j]
  }

  lemma {:induction false} UniqIsExact<T>(s: seq<T>)
    ensures NoRepeats(Uniq(s))
    ensures forall x :: x in Uniq(s) <==> x in s
  {
    if s != [] {
      UniqIsExact(s[..|s| - 1]);
      assert s == s[..|s| - 1] + [s[|s| - 1]];
    }
  }

  lemma UniqMember<T>(s: seq<T>, x: T)
    ensures x in Uniq(s) <==> x in s
  {
    hide Uniq;
    UniqIsExact(s);
  }

  /** Where an element first occurs. */
  function FirstAt<T(==)>(s: seq<T>, x: T): (i: nat)
    requires x in s
    ensures i < |s| && s[i] == x && x !in s[..i]
  {
    if s[0] == x then 0 else 1 + FirstAt(s[1..], x)
  }

  lemma {:induction false} FirstIs<T>(s: seq<T>, x: T, k: nat)
    requires k < |s| && s[k] == x && x !in s[..k]
    ensures FirstAt(s, x) == k
  {
    if k > 0 {
      assert s[0] == s[..k][0] && s[1..][..k - 1] == s[..k][1..];
      FirstIs(s[1..], x, k - 1);
    }
  }

  lemma FirstInFront<T>(s: seq<T>, n: nat, x: T)
    requires n <= |s| && x in s[..n]
    ensures x in s && FirstAt(s, x) == FirstAt(s[..n], x)
  {
    var q := FirstAt(s[..n], x);
    assert s[..n][..q] == s[..q];
    FirstIs(s, x, q);
  }

  /** What is kept is in the order of its first occurrences. */
  lemma {:induction false} UniqInOrder(s: seq<UutName>, i: nat, j: nat)
    requires i < j < |Uniq(s)|
    ensures Uniq(s)[i] in s && Uniq(s)[j] in s && FirstAt(s, Uniq(s)[i]) < FirstAt(s, Uniq(s)[j])
    decreases |s|
  {
    var n := |s| - 1;
    var front := s[..n];
    var before := Uniq(front);
    var x, y := Uniq(s)[i], Uniq(s)[j];
    UniqMember(s, x);
    UniqMember(s, y);
    UniqMember(front, x);
    UniqMember(front, y);
    assert x == before[i] && x in before;
    FirstInFront(s, n, x);
    if j < |before| {
      assert y == before[j] && y in before;
      FirstInFront(s, n, y);
      UniqInOrder(front, i, j);
    }
  }

  /** Every key that is a purpose leads to itself, and every value is a purpose. */
  ghost predicate OwnKeys(m: Entries<string>, purposes: seq<string>) {
    && (forall p <- purposes :: Get(m, p) == Some(p))
    && (forall k: string :: Has(m, k) ==> Get(m, k).value in purposes)
  }

  lemma {:induction false} PurposeMapIsOwn(purposes: seq<string>, done: seq<string>, m: Entries<string>)
    requires OwnKeys(m, done)
    ensures OwnKeys(PurposeMap(purposes, m), done + purposes)
    decreases |purposes|
  {
    if purposes == [] {
      assert done + purposes == done;
    } else {
      var p := purposes[0];
      var n := Put(m, p, p);
      forall k: string ensures Get(n, k) == if k == p then Some(p) else Get(m, k) { GetOfPut(m, p, p, k); }
      assert OwnKeys(n, done + [p]);
      PurposeMapIsOwn(purposes[1..], done + [p], n);
      assert done + purposes == (done + [p]) + purposes[1..];
    }
  }

  /** Roles that are not purposes, or are aliases of themselves, disturb no purpose. */
  lemma {:induction false} RolesKeepOwn(m: Entries<string>, roles: Entries<string>, purposes: seq<string>)
    requires OwnKeys(m, purposes)
    requires forall r <- roles :: r.1 in purposes && (r.0 in purposes ==> r.0 == r.1)
    ensures WithRoles(m, roles).Ok? && OwnKeys(WithRoles(m, roles).value, purposes)
    decreases |roles|
  {
    if roles != [] {
      var r := roles[0];
      var n := Put(m, r.0, r.1);
      forall k: string ensures Get(n, k) == if k == r.0 then Some(r.1) else Get(m, k) { GetOfPut(m, r.0, r.1, k); }
      RolesKeepOwn(n, roles[1..], purposes);
    }
  }

  lemma {:induction false} LookupIsValue(m: Entries<string>, k: string)
    ensures Has(m, k) ==> Get(m, k).value in Values(m)
  {
    if m != [] && m[0].0 != k {
      LookupIsValue(m[1..], k);
    }
  }

  lemma {:induction false} ValueIsLookup(m: Entries<string>, v: string) returns (k: string)
    requires Distinct(m) && v in Values(m)
    ensures Get(m, k) == Some(v)
  {
    if v == m[0].1 {
      k := m[0].0;
    } else {
      k := ValueIsLookup(m[1..], v);
      assert k != m[0].0;
    }
  }

  lemma {:induction false} AbsentEverywhere(m: Entries<string>, k: string)
    requires !Has(m, k)
    ensures forall i :: 0 <= i < |m| ==> m[i].0 != k
  {
    if m != [] {
      AbsentEverywhere(m[1..], k);
      assert forall i :: 1 <= i < |m| ==> m[i] == m[1..][i - 1];
    }
  }

  lemma {:induction false} MapsAreDistinct(purposes: seq<string>, m: Entries<string>, roles: Entries<string>)
    requires Distinct(m)
    ensures Distinct(PurposeMap(purposes, m))
    ensures WithRoles(m, roles).Ok? ==> Distinct(WithRoles(m, roles).value)
    decreases |purposes| + |roles|
  {
    if purposes != [] {
      PutKeepsDistinct(m, purposes[0], purposes[0]);
      MapsAreDistinct(purposes[1..], Put(m, purposes[0], purposes[0]), []);
    }
    if roles != [] && Get(m, roles[0].1).Some? {
      PutKeepsDistinct(m, roles[0].0, Get(m, roles[0].1).value);
      MapsAreDistinct([], Put(m, roles[0].0, Get(m, roles[0].1).value), roles[1..]);
    }
  }

  /** The purposes whose tokens are minted. */
  function Minted(purposes: seq<string>, roles: Entries<string>): Result<seq<string>, NameError> {
    var m :- WithRoles(PurposeMap(purposes, []), roles);
    Ok(Uniq(Values(m)))
  }

  // ----- which purposes keep their token -----

  /** The keys that lead to a purpose, followed through the roles: a role joins them when its own
      purpose is one of them, and otherwise leaves. */
  function KeysAfter(keys: set<string>, roles: Entries<string>): set<string>
    decreases |roles|
  {
    if roles == [] then keys
    else KeysAfter(if roles[0].1 in keys then keys + {roles[0].0} else keys - {roles[0].0}, roles[1..])
  }

  /** Some key still leads to the purpose when all roles have been mapped. */
  predicate Survives(p: string, roles: Entries<string>) {
    KeysAfter({p}, roles) != {}
  }

  /** The keys under which a map has the value. */
  function KeysFor(m: Entries<string>, v: string): set<string> {
    if m == [] then {} else (if m[0].1 == v then {m[0].0} else {}) + KeysFor(m[1..], v)
  }

  lemma {:induction false} KeysForIsLookup(m: Entries<string>, v: string, k: string)
    requires Distinct(m)
    ensures k in KeysFor(m, v) <==> Get(m, k) == Some(v)
  {
    if m != [] {
      KeysForIsLookup(m[1..], v, k);
    }
  }

  lemma KeysForPut(m: Entries<string>, key: string, value: string, v: string)
    requires Distinct(m)
    ensures KeysFor(Put(m, key, value), v) == if v == value then KeysFor(m, v) + {key} else KeysFor(m, v) - {key}
  {
    PutKeepsDistinct(m, key, value);
    forall k: string
      ensures k in KeysFor(Put(m, key, value), v) <==> (if k == key then v == value else k in KeysFor(m, v))
    {
      KeysForIsLookup(Put(m, key, value), v, k);
      KeysForIsLookup(m, v, k);
      GetOfPut(m, key, value, k);
    }
  }

  /** The loop over the roles does to every purpose's keys what `KeysAfter` says. */
  lemma {:induction false} RolesMoveKeys(m: Entries<string>, roles: Entries<string>, p: string)
    requires Distinct(m) && WithRoles(m, roles).Ok?
    ensures KeysFor(WithRoles(m, roles).value, p) == KeysAfter(KeysFor(m, p), roles)
    decreases |roles|
  {
    if roles != [] {
      var (role, purpose) := roles[0];
      var value := Get(m, purpose).value;
      KeysForIsLookup(m, p, purpose);
      KeysForPut(m, role, value, p);
      PutKeepsDistinct(m, role, value);
      RolesMoveKeys(Put(m, role, value), roles[1..], p);
    }
  }

  /** Before the roles, a purpose is its own only key. */
  lemma OwnKeyOnly(m: Entries<string>, purposes: seq<string>, p: string)
    requires Distinct(m) && OwnKeys(m, purposes) && SelfKeyed(m)
    ensures KeysFor(m, p) == if p in purposes then {p} else {}
  {
    forall k: string ensures k in KeysFor(m, p) <==> k == p && p in purposes {
      KeysForIsLookup(m, p, k);
      if Get(m, k) == Some(p) {
        SelfKeyedLookup(m, k);
      }
    }
  }

  predicate SelfKeyed(m: Entries<string>) {
    forall k :: 0 <= k < |m| ==> m[k].0 == m[k].1
  }

  lemma {:induction false} SelfKeyedLookup(m: Entries<string>, k: string)
    requires SelfKeyed(m) && Has(m, k)
    ensures Get(m, k) == Some(k)
  {
    if m[0].0 != k {
      assert forall i :: 0 <= i < |m| - 1 ==> m[1..][i] == m[i + 1];
      SelfKeyedLookup(m[1..], k);
    }
  }

  lemma {:induction false} PurposeMapSelfKeyed(purposes: seq<string>, m: Entries<string>)
    requires SelfKeyed(m)
    ensures SelfKeyed(PurposeMap(purposes, m))
    decreases |purposes|
  {
    if purposes != [] {
      PutSelfKeyed(m, purposes[0]);
      PurposeMapSelfKeyed(purposes[1..], Put(m, purposes[0], purposes[0]));
    }
  }

  lemma {:induction false} PutSelfKeyed(m: Entries<string>, p: string)
    requires SelfKeyed(m)
    ensures SelfKeyed(Put(m, p, p))
  {
    if m != [] && m[0].0 != p {
      assert forall i :: 0 <= i < |m| - 1 ==> m[1..][i] == m[i + 1];
      PutSelfKeyed(m[1..], p);
      assert Put(m, p, p)[1..] == Put(m[1..], p, p);
      assert forall i :: 1 <= i < |Put(m, p, p)| ==> Put(m, p, p)[i] == Put(m[1..], p, p)[i - 1];
    } else if m != [] {
      assert forall i :: 1 <= i < |m| ==> Put(m, p, p)[i] == m[i];
    }
  }

  /** Main result: the tokens minted are those of the purposes that survive the roles, one each. */
  lemma MintedExactly(purposes: seq<string>, roles: Entries<string>)
    requires Minted(purposes, roles).Ok?
    ensures NoRepeats(Minted(purposes, roles).value)
    ensures forall p :: p in Minted(purposes, roles).value <==> p in purposes && Survives(p, roles)
  {
    var m0 := PurposeMap(purposes, []);
    PurposeMapIsOwn(purposes, [], []);
    assert [] + purposes == purposes;
    PurposeMapSelfKeyed(purposes, []);
    MapsAreDistinct(purposes, [], []);
    MapsAreDistinct([], m0, roles);
    var m := WithRoles(m0, roles).value;
    UniqIsExact(Values(m));
    forall p ensures p in Values(m) <==> p in purposes && Survives(p, roles) {
      OwnKeyOnly(m0, purposes, p);
      RolesMoveKeys(m0, roles, p);
      NoKeysStay(roles);
      if p in Values(m) {
        var k := ValueIsLookup(m, p);
        KeysForIsLookup(m, p, k);
      } else {
        forall k ensures k !in KeysFor(m, p) {
          KeysForIsLookup(m, p, k);
          LookupIsValue(m, k);
        }
      }
    }
  }

  /** What no key leads to, no role leads to. */
  lemma {:induction false} NoKeysStay(roles: Entries<string>)
    ensures KeysAfter({}, roles) == {}
    decreases |roles|
  {
    if roles != [] {
      var none: set<string> := {};
      assert none - {roles[0].0} == none;
      NoKeysStay(roles[1..]);
    }
  }

  /** However many roles share a purpose, when no role has the name of another purpose exactly one
      token is minted for each distinct purpose. */
  lemma OneTokenPerPurpose(purposes: seq<string>, roles: Entries<string>)
    requires forall r <- roles :: r.1 in purposes && (r.0 in purposes ==> r.0 == r.1)
    ensures Minted(purposes, roles).Ok?
    ensures NoRepeats(Minted(purposes, roles).value)
    ensures forall p :: p in Minted(purposes, roles).value <==> p in purposes
  {
    PurposeMapIsOwn(purposes, [], []);
    assert [] + purposes == purposes;
    RolesKeepOwn(PurposeMap(purposes, []), roles, purposes);
    MintedExactly(purposes, roles);
    forall p <- purposes ensures Survives(p, roles) {
      UntakenStays({p}, roles, p);
    }
  }

  lemma {:induction false} UntakenStays(keys: set<string>, roles: Entries<string>, p: string)
    requires p in keys && forall r <- roles :: r.0 == p ==> r.1 == p
    ensures p in KeysAfter(keys, roles)
    decreases |roles|
  {
    if roles != [] {
      UntakenStays(if roles[0].1 in keys then keys + {roles[0].0} else keys - {roles[0].0}, roles[1..], p);
    }
  }

  /** For instance: role `b`, an alias of `a`, takes purpose `b`'s place, unless another role was an
      alias of `b` before it. */
  lemma RoleNamedAsPurpose()
    ensures !Survives("b", [("b", "a")]) && Survives("a", [("b", "a")])
    ensures Survives("b", [("x", "b"), ("b", "a")])
  {
    assert [("b", "a")][1..] == [];
    assert [("x", "b"), ("b", "a")][1..] == [("b", "a")];
    assert {"b"} - {"b"} == {};
    assert "x" in ({"b"} + {"x"}) - {"b"};
  }

  // ----- the objects -----

  /** `UutName`. */
  class UutName {
    const purpose: string
    const name: string

    constructor (purpose: string, name: string)
      requires |name| <= MAX_UUT_NAME
      ensures this.purpose == purpose && this.name == name
    {
      this.purpose := purpose;
      this.name := name;
    }
  }

  /** The object map stands for the purpose map: same keys in the same order, one object for each
      purpose, carrying its name. */
  ghost predicate StandsFor(objects: Entries<UutName>, m: Entries<string>, h: SeedHash, seed: TxOutputId) {
    && |objects| == |m|
    && (forall i :: 0 <= i < |m| ==>
          && objects[i].0 == m[i].0 && objects[i].1.purpose == m[i].1
          && objects[i].1.name == UutNameOf(h, m[i].1, seed))
    && (forall i, j :: 0 <= i < |m| && 0 <= j < |m| && m[i].1 == m[j].1 ==> objects[i].1 == objects[j].1)
  }

  lemma {:induction false} LookupsAgree(objects: Entries<UutName>, m: Entries<string>, key: string)
    requires |objects| == |m| && forall i :: 0 <= i < |m| ==> objects[i].0 == m[i].0
    ensures Has(objects, key) <==> Has(m, key)
    ensures Has(m, key) ==> exists i :: 0 <= i < |m| && Get(m, key).value == m[i].1 && Get(objects, key).value == objects[i].1
  {
    if m != [] && m[0].0 != key {
      LookupsAgree(objects[1..], m[1..], key);
      if Has(m, key) {
        var i :| 0 <= i < |m| - 1 && Get(m[1..], key).value == m[1..][i].1
                 && Get(objects[1..], key).value == objects[1..][i].1;
        assert Get(m, key).value == m[i + 1].1 && Get(objects, key).value == objects[i + 1].1;
      }
    }
  }

  lemma {:induction false} PutAgrees(objects: Entries<UutName>, m: Entries<string>, key: string, o: UutName, p: string)
    requires |objects| == |m| && Distinct(m)
    requires forall i :: 0 <= i < |m| ==> objects[i].0 == m[i].0
    ensures var os := Put(objects, key, o); var ps := Put(m, key, p);
            && |os| == |ps|
            && forall i :: 0 <= i < |ps| ==>
                 && os[i].0 == ps[i].0
                 && ((ps[i].0 == key && os[i].1 == o && ps[i].1 == p)
                    || (i < |m| && m[i].0 != key && os[i] == objects[i] && ps[i] == m[i]))
  {
    if m != [] && m[0].0 != key {
      PutAgrees(objects[1..], m[1..], key, o, p);
      var os := Put(objects, key, o);
      var ps := Put(m, key, p);
      assert os[1..] == Put(objects[1..], key, o) && ps[1..] == Put(m[1..], key, p);
      forall i | 0 <= i < |ps|
        ensures && os[i].0 == ps[i].0
                && ((ps[i].0 == key && os[i].1 == o && ps[i].1 == p)
                    || (i < |m| && m[i].0 != key && os[i] == objects[i] && ps[i] == m[i]))
      {
        if i > 0 {
          assert os[i] == os[1..][i - 1] && ps[i] == ps[1..][i - 1];
        }
      }
    } else if m != [] {
      AbsentEverywhere(m[1..], key);
      assert forall i :: 1 <= i < |m| ==> m[i] == m[1..][i - 1];
    }
  }

  /** A purpose's new object takes the place of any object the purpose had. */
  lemma PurposeAdded(objects: Entries<UutName>, m: Entries<string>, o: UutName, h: SeedHash, seed: TxOutputId)
    requires Distinct(m) && StandsFor(objects, m, h, seed) && SelfKeyed(m) && o.name == UutNameOf(h, o.purpose, seed)
    ensures var ps := Put(m, o.purpose, o.purpose);
            Distinct(ps) && StandsFor(Put(objects, o.purpose, o), ps, h, seed) && SelfKeyed(ps)
  {
    PutAgrees(objects, m, o.purpose, o, o.purpose);
    PutKeepsDistinct(m, o.purpose, o.purpose);
  }

  lemma RoleAdded(objects: Entries<UutName>, m: Entries<string>, role: string, purpose: string, h: SeedHash, seed: TxOutputId)
    requires Distinct(m) && StandsFor(objects, m, h, seed) && Has(objects, purpose)
    ensures Has(m, purpose)
    ensures var ps := Put(m, role, Get(m, purpose).value);
            Distinct(ps) && StandsFor(Put(objects, role, Get(objects, purpose).value), ps, h, seed)
  {
    LookupsAgree(objects, m, purpose);
    PutAgrees(objects, m, role, Get(objects, purpose).value, Get(m, purpose).value);
    PutKeepsDistinct(m, role, Get(m, purpose).value);
  }

  lemma NameIs(h: SeedHash, purpose: string, seed: TxOutputId)
    ensures UutNameOf(h, purpose, seed) == purpose + "-" + h(seed)
  {
  }

  /** `txnWillMintUuts`: the names already in the context, with the new ones over them. */
  method TxnWillMintUuts(existing: Entries<UutName>, h: SeedHash, purposes: seq<string>, seed: TxOutputId,
                         roles: Entries<string>) returns (r: Result<Entries<UutName>, NameError>, ghost own: Entries<UutName>)
    ensures r.Ok? ==> WithRoles(PurposeMap(purposes, []), roles).Ok?
                      && StandsFor(own, WithRoles(PurposeMap(purposes, []), roles).value, h, seed)
                      && Distinct(own) && r.value == PutAll(existing, own)
    ensures r.Err? <==> (exists p <- purposes :: |p + "-" + h(seed)| > 32)
                        || WithRoles(PurposeMap(purposes, []), roles).Err?
  {
    own := [];
    hide UutNameOf;
    var uutMap: Entries<UutName> := [];
    ghost var m: Entries<string> := [];
    var i := 0;
    while i < |purposes|
      invariant 0 <= i <= |purposes|
      invariant PurposeMap(purposes, []) == PurposeMap(purposes[i..], m)
      invariant Distinct(m) && StandsFor(uutMap, m, h, seed) && SelfKeyed(m)
      invariant forall j :: 0 <= j < i ==> |purposes[j] + "-" + h(seed)| <= 32
    {
      var p := purposes[i];
      NameIs(h, p, seed);
      if |UutNameOf(h, p, seed)| > MAX_UUT_NAME {
        return Err(NameTooLong), own;
      }
      var o := new UutName(p, UutNameOf(h, p, seed));
      PurposeAdded(uutMap, m, o, h, seed);
      uutMap := Put(uutMap, p, o);
      m := Put(m, p, p);
      assert purposes[i..][1..] == purposes[i + 1..];
      i := i + 1;
    }
    var todo := roles;
    while todo != []
      invariant WithRoles(PurposeMap(purposes, []), roles) == WithRoles(m, todo)
      invariant Distinct(m) && StandsFor(uutMap, m, h, seed)
      decreases |todo|
    {
      var (role, purpose) := todo[0];
      LookupsAgree(uutMap, m, purpose);
      var mapped := Get(uutMap, purpose);
      if mapped.None? {
        return Err(RoleMismatch(role)), own;
      }
      RoleAdded(uutMap, m, role, purpose, h, seed);
      uutMap := Put(uutMap, role, mapped.value);
      m := Put(m, role, Get(m, purpose).value);
      todo := todo[1..];
    }
    own := uutMap;
    SameKeysDistinct(own, m);
    r := Ok(PutAll(existing, uutMap));
  }

  lemma {:induction false} SameKeysDistinct(objects: Entries<UutName>, m: Entries<string>)
    requires |objects| == |m| && Distinct(m) && forall i :: 0 <= i < |m| ==> objects[i].0 == m[i].0
    ensures Distinct(objects)
  {
    if m != [] {
      assert forall i :: 0 <= i < |m| - 1 ==> objects[1..][i].0 == m[1..][i].0;
      LookupsAgree(objects[1..], m[1..], m[0].0);
      SameKeysDistinct(objects[1..], m[1..]);
    }
  }

  /** `mkUutValuesEntries`: the names to mint, one for each object, however often it occurs. */
  method MkUutValuesEntries(uuts: seq<UutName>) returns (names: seq<string>)
    ensures var uniqs := Uniq(uuts);
            |names| == |uniqs| && forall i :: 0 <= i < |uniqs| ==> names[i] == uniqs[i].name
  {
    var uniqs: seq<UutName> := [];
    var i := 0;
    while i < |uuts|
      invariant 0 <= i <= |uuts| && uniqs == Uniq(uuts[..i])
    {
      assert uuts[..i + 1][..i] == uuts[..i];
      if uuts[i] !in uniqs {
        uniqs := uniqs + [uuts[i]];
      }
      i := i + 1;
    }
    assert uuts[..i] == uuts;
    names := Names(uniqs);
  }

  function Names(uuts: seq<UutName>): (names: seq<string>)
    ensures |names| == |uuts| && forall i :: 0 <= i < |uuts| ==> names[i] == uuts[i].name
  {
    if uuts == [] then [] else [uuts[0].name] + Names(uuts[1..])
  }

  /** Objects and purposes go together: each object has its purpose, and equal purposes mean the
      same object. */
  ghost predicate Paired(os: seq<UutName>, ps: seq<string>) {
    && |os| == |ps|
    && (forall i :: 0 <= i < |ps| ==> os[i].purpose == ps[i])
    && (forall i, j :: 0 <= i < |ps| && 0 <= j < |ps| && ps[i] == ps[j] ==> os[i] == os[j])
  }

  /** Dropping repeated objects drops exactly the repeated purposes. */
  lemma {:induction false} UniqAgrees(os: seq<UutName>, ps: seq<string>)
    requires Paired(os, ps)
    ensures Paired(Uniq(os), Uniq(ps))
    ensures forall o <- Uniq(os) :: o in os
  {
    if ps != [] {
      var n := |ps| - 1;
      UniqAgrees(os[..n], ps[..n]);
      UniqIsExact(os[..n]);
      UniqIsExact(ps[..n]);
      if ps[n] in ps[..n] {
        var i :| 0 <= i < n && ps[i] == ps[n];
        assert os[i] == os[n] && os[i] in os[..n];
      } else {
        assert forall i :: 0 <= i < n ==> ps[i] in ps[..n] && os[i].purpose == ps[i];
      }
    }
  }

  lemma {:induction false} ValuesAt<V>(m: Entries<V>)
    ensures |Values(m)| == |m| && forall i :: 0 <= i < |m| ==> Values(m)[i] == m[i].1
  {
    if m != [] {
      ValuesAt(m[1..]);
      assert forall i :: 1 <= i < |m| ==> m[i] == m[1..][i - 1];
    }
  }

  /** Key `k` leads to the object. */
  predicate Leads(m: Entries<UutName>, k: string, o: UutName) {
    Get(m, k) == Some(o)
  }

  lemma {:induction false} ValuesAreLed(m: Entries<UutName>, o: UutName)
    requires Distinct(m)
    ensures o in Values(m) <==> exists k :: Leads(m, k, o)
  {
    if m != [] {
      ValuesAreLed(m[1..], o);
      if o == m[0].1 {
        assert Leads(m, m[0].0, o);
      } else {
        forall k ensures Leads(m, k, o) <==> Leads(m[1..], k, o) {
        }
      }
    }
  }

  /** Merging keeps what the new map has, and what it does not displace. */
  lemma {:induction false} MergedLeads(a: Entries<UutName>, b: Entries<UutName>, k: string, o: UutName)
    requires Distinct(a) && Distinct(b)
    ensures Distinct(PutAll(a, b))
    ensures Leads(PutAll(a, b), k, o) <==> Leads(b, k, o) || (Leads(a, k, o) && !Has(b, k))
    decreases |b|
  {
    if b != [] {
      PutKeepsDistinct(a, b[0].0, b[0].1);
      GetOfPut(a, b[0].0, b[0].1, k);
      MergedLeads(Put(a, b[0].0, b[0].1), b[1..], k, o);
    }
  }

  lemma MergedValues(a: Entries<UutName>, b: Entries<UutName>, o: UutName)
    requires Distinct(a) && Distinct(b)
    ensures o in Values(PutAll(a, b)) <==> o in Values(b) || exists k :: Leads(a, k, o) && !Has(b, k)
  {
    MergedLeads(a, b, "", o);
    ValuesAreLed(PutAll(a, b), o);
    ValuesAreLed(b, o);
    forall k ensures Leads(PutAll(a, b), k, o) <==> Leads(b, k, o) || (Leads(a, k, o) && !Has(b, k)) {
      MergedLeads(a, b, k, o);
    }
  }

  /** One of each name, then the additional entries. */
  function MintList(names: seq<string>, additional: seq<(string, int)>): seq<(string, int)> {
    if names == [] then additional else [(names[0], 1)] + MintList(names[1..], additional)
  }

  lemma {:induction false} MintListIs(names: seq<string>, additional: seq<(string, int)>)
    ensures var list := MintList(names, additional);
            && |list| == |names| + |additional| && list[|names|..] == additional
            && forall i :: 0 <= i < |names| ==> list[i] == (names[i], 1)
  {
    if names != [] {
      MintListIs(names[1..], additional);
      assert MintList(names, additional)[1..] == MintList(names[1..], additional);
    }
  }

  /** How many of a token a list of values asks for, all entries taken together. */
  function Quantity(list: seq<(string, int)>, name: string): int {
    if list == [] then 0 else (if list[0].0 == name then list[0].1 else 0) + Quantity(list[1..], name)
  }

  /** How many of the objects have a name. */
  function Named(uuts: seq<UutName>, name: string): nat {
    if uuts == [] then 0 else (if uuts[0].name == name then 1 else 0) + Named(uuts[1..], name)
  }

  lemma {:induction false} QuantityMinted(uuts: seq<UutName>, list: seq<(string, int)>, name: string)
    requires |uuts| <= |list| && forall i :: 0 <= i < |uuts| ==> list[i] == (uuts[i].name, 1)
    ensures Quantity(list, name) == Named(uuts, name) + Quantity(list[|uuts|..], name)
    decreases |uuts|
  {
    if uuts != [] {
      assert forall i :: 0 <= i < |uuts| - 1 ==> list[1..][i] == (uuts[1..][i].name, 1);
      QuantityMinted(uuts[1..], list[1..], name);
      assert list[1..][|uuts| - 1..] == list[|uuts|..];
    }
  }

  /** Main result: `txnMintingUuts` mints one token for each name object in the context, and then what
      is additional. The objects are those of the new purposes, and the earlier ones that no new key
      has displaced. In a context without earlier names the tokens are, in order, those of the
      purposes that `Minted` lists: comparing by reference comes to the same as comparing purposes. */
  method TxnMintNames(existing: Entries<UutName>, h: SeedHash, purposes: seq<string>, seed: TxOutputId,
                      roles: Entries<string>, additional: seq<(string, int)>)
    returns (r: Result<seq<(string, int)>, NameError>, ghost own: Entries<UutName>, ghost minted: seq<UutName>)
    requires Distinct(existing)
    ensures r.Err? <==> (exists p <- purposes :: |p + "-" + h(seed)| > 32) || Minted(purposes, roles).Err?
    ensures r.Ok? ==> NoRepeats(minted) && |r.value| == |minted| + |additional| && r.value[|minted|..] == additional
                      && forall i :: 0 <= i < |minted| ==> r.value[i] == (minted[i].name, 1)
    ensures r.Ok? ==> forall name :: Quantity(r.value, name) == Named(minted, name) + Quantity(additional, name)
    ensures r.Ok? ==> StandsFor(own, WithRoles(PurposeMap(purposes, []), roles).value, h, seed)
    ensures r.Ok? ==> forall o: UutName :: o in minted <==>
              o in Values(own) || exists k :: Leads(existing, k, o) && !Has(own, k)
    ensures r.Ok? && existing == [] ==>
              var ps := Minted(purposes, roles).value;
              |minted| == |ps| && forall i :: 0 <= i < |ps| ==> minted[i].name == UutNameOf(h, ps[i], seed)
  {
    hide StandsFor, UutNameOf, WithRoles, PurposeMap;
    var uutMap, own' := TxnWillMintUuts(existing, h, purposes, seed, roles);
    own, minted := own', [];
    if uutMap.Err? {
      return Err(uutMap.error), own, minted;
    }
    minted := Uniq(Values(uutMap.value));
    if existing == [] {
      assert existing + own == own;
      PutAllOfDistinct(existing, own);
      MintedNames(own, WithRoles(PurposeMap(purposes, []), roles).value, h, seed);
    }
    var names := MkUutValuesEntries(Values(uutMap.value));
    r := Ok(MintList(names, additional));
    MintListIs(names, additional);
    forall name ensures Quantity(r.value, name) == Named(minted, name) + Quantity(additional, name) {
      QuantityMinted(minted, r.value, name);
    }
    UniqIsExact(Values(uutMap.value));
    forall o: UutName
      ensures o in minted <==> o in Values(own) || exists k :: Leads(existing, k, o) && !Has(own, k)
    {
      MergedValues(existing, own, o);
    }
  }

  lemma MintedNames(own: Entries<UutName>, m: Entries<string>, h: SeedHash, seed: TxOutputId)
    requires StandsFor(own, m, h, seed)
    ensures var os, ps := Uniq(Values(own)), Uniq(Values(m));
            |os| == |ps| && forall i :: 0 <= i < |ps| ==> os[i].name == UutNameOf(h, ps[i], seed)
  {
    hide UutNameOf;
    ValuesAt(own);
    ValuesAt(m);
    var os := Values(own);
    assert forall o <- os :: exists i :: 0 <= i < |m| && o == own[i].1;
    assert forall o <- os :: o.name == UutNameOf(h, o.purpose, seed);
    UniqAgrees(os, Values(m));
  }
}
