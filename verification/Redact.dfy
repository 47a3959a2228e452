/** Data-loss prevention on gateway requests: every string of the request's JSON is scanned and
    rewritten in place, and the hits are counted by kind. */
module Redact {
  import opened Wrappers
  import Luhn

  // ------------------------------------------------------------- one string

  /** How a regular expression divides a text: matches, and the text between them. */
  datatype Segment = Text(s: string) | Match(s: string)

  type Finder = string -> seq<Segment>

  datatype Pattern = Pattern(name: string, find: Finder)

  /** The ordered patterns, and the finder of card-shaped runs. */
  datatype Rules = Rules(patterns: seq<Pattern>, cards: Finder)

  function Token(name: string): string {
    "[REDACTED:" + name + "]"
  }

  /** All of the text with every match replaced. */
  function Replaced(segs: seq<Segment>, name: string): string {
    if segs == [] then ""
    else
      var last := segs[|segs|-1];
      Replaced(segs[..|segs|-1], name) + if last.Match? then Token(name) else last.s
  }

  function Matches(segs: seq<Segment>, name: string): multiset<string> {
    if segs == [] then multiset{}
    else Matches(segs[..|segs|-1], name) + if segs[|segs|-1].Match? then multiset{name} else multiset{}
  }

  /** A card-shaped run is a match only when it passes the Luhn test. */
  function CardSegments(segs: seq<Segment>): (r: seq<Segment>)
    ensures |r| == |segs|
  {
    seq(|segs|, i requires 0 <= i < |segs| =>
      if segs[i].Match? && !Luhn.Accepted(Luhn.Digits(segs[i].s)) then Text(segs[i].s) else segs[i])
  }

  const CARD := "credit_card"

  function AfterPatterns(ps: seq<Pattern>, s: string): string {
    if ps == [] then s
    else
      var p := ps[|ps|-1];
      Replaced(p.find(AfterPatterns(ps[..|ps|-1], s)), p.name)
  }

  function PatternHits(ps: seq<Pattern>, s: string): multiset<string> {
    if ps == [] then multiset{}
    else
      var p := ps[|ps|-1];
      PatternHits(ps[..|ps|-1], s) + Matches(p.find(AfterPatterns(ps[..|ps|-1], s)), p.name)
  }

  function Clean(rules: Rules, s: string): string {
    Replaced(CardSegments(rules.cards(AfterPatterns(rules.patterns, s))), CARD)
  }

  function StringHits(rules: Rules, s: string): multiset<string> {
    PatternHits(rules.patterns, s) + Matches(CardSegments(rules.cards(AfterPatterns(rules.patterns, s))), CARD)
  }

  /** The `hits` map: a kind has an entry exactly when it was hit. */
  class Hits {
    var counts: map<string, int>
    ghost var all: multiset<string>

    ghost predicate Valid()
      reads this
    {
      forall k :: (k in counts <==> k in all) && (k in counts ==> counts[k] == all[k])
    }

    constructor ()
      ensures Valid() && all == multiset{} && counts == map[]
    {
      counts, all := map[], multiset{};
    }

    method Bump(name: string)
      requires Valid()
      modifies this
      ensures Valid() && all == old(all) + multiset{name}
    {
      counts := counts[name := (if name in counts then counts[name] else 0) + 1];
      all := all + multiset{name};
    }
  }

  lemma SegmentStep(segs: seq<Segment>, i: nat, name: string)
    requires i < |segs|
    ensures Replaced(segs[..i+1], name) == Replaced(segs[..i], name) + if segs[i].Match? then Token(name) else segs[i].s
    ensures Matches(segs[..i+1], name) == Matches(segs[..i], name) + if segs[i].Match? then multiset{name} else multiset{}
  {
    hide Token;
    assert segs[..i+1][..i] == segs[..i];
  }

  lemma NoSegments(segs: seq<Segment>, name: string)
    ensures Replaced(segs[..0], name) == "" && Matches(segs[..0], name) == multiset{}
    ensures segs[..|segs|] == segs
  {
  }

  method ReplaceAll(segs: seq<Segment>, name: string, hits: Hits) returns (r: string)
    requires hits.Valid()
    modifies hits
    ensures r == Replaced(segs, name)
    ensures hits.Valid() && hits.all == old(hits.all) + Matches(segs, name)
  {
    hide Replaced, Matches, Token;
    r := "";
    NoSegments(segs, name);
    for i := 0 to |segs|
      invariant r == Replaced(segs[..i], name)
      invariant hits.Valid() && hits.all == old(hits.all) + Matches(segs[..i], name)
    {
      SegmentStep(segs, i, name);
      if segs[i].Match? {
        hits.Bump(name);
        r := r + Token(name);
      } else {
        r := r + segs[i].s;
      }
    }
  }

  method ReplaceCards(runs: seq<Segment>, hits: Hits) returns (r: string)
    requires hits.Valid()
    modifies hits
    ensures r == Replaced(CardSegments(runs), CARD)
    ensures hits.Valid() && hits.all == old(hits.all) + Matches(CardSegments(runs), CARD)
  {
    hide Replaced, Matches, Token;
    ghost var segs := CardSegments(runs);
    r := "";
    NoSegments(segs, CARD);
    for i := 0 to |runs|
      invariant r == Replaced(segs[..i], CARD)
      invariant hits.Valid() && hits.all == old(hits.all) + Matches(segs[..i], CARD)
    {
      SegmentStep(segs, i, CARD);
      if runs[i].Text? {
        r := r + runs[i].s;
        continue;
      }
      var valid := Luhn.LuhnValid(runs[i].s);
      if !valid {
        r := r + runs[i].s;
        continue;
      }
      hits.Bump(CARD);
      r := r + Token(CARD);
    }
  }

  lemma PatternStep(ps: seq<Pattern>, i: nat, s: string)
    requires i < |ps|
    ensures AfterPatterns(ps[..i+1], s) == Replaced(ps[i].find(AfterPatterns(ps[..i], s)), ps[i].name)
    ensures PatternHits(ps[..i+1], s) == PatternHits(ps[..i], s) + Matches(ps[i].find(AfterPatterns(ps[..i], s)), ps[i].name)
  {
    hide Replaced, Matches;
    assert ps[..i+1][..i] == ps[..i];
  }

  method RedactDLPString(rules: Rules, s: string, hits: Hits) returns (r: string)
    requires hits.Valid()
    modifies hits
    ensures r == Clean(rules, s)
    ensures hits.Valid() && hits.all == old(hits.all) + StringHits(rules, s)
  {
    hide Replaced, Matches, CardSegments;
    r := s;
    for i := 0 to |rules.patterns|
      invariant r == AfterPatterns(rules.patterns[..i], s)
      invariant hits.Valid() && hits.all == old(hits.all) + PatternHits(rules.patterns[..i], s)
    {
      PatternStep(rules.patterns, i, s);
      var segs := rules.patterns[i].find(r);
      r := ReplaceAll(segs, rules.patterns[i].name, hits);
    }
    assert rules.patterns[..|rules.patterns|] == rules.patterns;
    var runs := rules.cards(r);
    r := ReplaceCards(runs, hits);
  }

  // ------------------------------------------------------------ JSON values

  datatype Json =
    | JNull
    | JBool(b: bool)
    | JNum(n: real)
    | JStr(s: string)
    | JArr(elems: seq<Json>)
    | JObj(fields: map<string, Json>)

  function RedactTree(rules: Rules, t: Json): Json {
    match t
    case JStr(s) => JStr(Clean(rules, s))
    case JArr(elems) => JArr(seq(|elems|, i requires 0 <= i < |elems| => RedactTree(rules, elems[i])))
    case JObj(fields) => JObj(map k | k in fields :: RedactTree(rules, fields[k]))
    case _ => t
  }

  ghost function TreeHits(rules: Rules, t: Json): multiset<string>
    decreases t, 0
  {
    match t
    case JStr(s) => StringHits(rules, s)
    case JArr(elems) => ElemHits(rules, t, |elems|)
    case JObj(fields) => FieldHits(rules, t, fields.Keys)
    case _ => multiset{}
  }

  ghost function ElemHits(rules: Rules, t: Json, n: nat): multiset<string>
    requires t.JArr? && n <= |t.elems|
    decreases t, 0, n
  {
    if n == 0 then multiset{} else ElemHits(rules, t, n - 1) + TreeHits(rules, t.elems[n - 1])
  }

  ghost function FieldHits(rules: Rules, t: Json, keys: set<string>): multiset<string>
    requires t.JObj? && keys <= t.fields.Keys
    decreases t, 0, |keys|
  {
    if keys == {} then multiset{}
    else
      var k :| k in keys;
      FieldHits(rules, t, keys - {k}) + TreeHits(rules, t.fields[k])
  }

  lemma FieldHitsStep(rules: Rules, t: Json, keys: set<string>, k: string)
    requires t.JObj? && keys <= t.fields.Keys && k in keys
    ensures FieldHits(rules, t, keys) == FieldHits(rules, t, keys - {k}) + TreeHits(rules, t.fields[k])
    decreases |keys|
  {
    var j :| j in keys && FieldHits(rules, t, keys) == FieldHits(rules, t, keys - {j}) + TreeHits(rules, t.fields[j]);
    if j != k {
      FieldHitsStep(rules, t, keys - {j}, k);
      FieldHitsStep(rules, t, keys - {k}, j);
      assert keys - {j} - {k} == keys - {k} - {j};
    }
  }

  // ------------------------------------------------- the tree in the heap

  /** A decoded value: lists and objects are shared, mutable containers. */
  datatype Value =
    | Null
    | Bool(b: bool)
    | Num(n: real)
    | Str(s: string)
    | Arr(a: array<Value>)
    | Obj(o: Fields)

  class Fields {
    var m: map<string, Value>

    constructor (m: map<string, Value>)
      ensures this.m == m
    {
      this.m := m;
    }
  }

  /** The containers of a decoded value, arranged as the tree they form; `foot` covers a container
      and everything below it. */
  datatype Shape =
    | Flat
    | SArr(a: array<Value>, elems: seq<Shape>, foot: set<object>)
    | SObj(o: Fields, fields: map<string, Shape>, foot: set<object>)

  ghost function Foot(sh: Shape): set<object> {
    if sh.Flat? then {} else sh.foot
  }

  /** No container occurs twice. */
  ghost predicate Separate(sh: Shape) {
    match sh
    case Flat => true
    case SArr(a, elems, foot) =>
      && a in foot
      && (forall i :: 0 <= i < |elems| ==> Foot(elems[i]) <= foot && a !in Foot(elems[i]))
      && (forall i, j :: 0 <= i < j < |elems| ==> Foot(elems[i]) !! Foot(elems[j]))
    case SObj(o, fields, foot) =>
      && o in foot
      && (forall k :: k in fields ==> Foot(fields[k]) <= foot && o !in Foot(fields[k]))
      && (forall j, k :: j in fields && k in fields && j != k ==> Foot(fields[j]) !! Foot(fields[k]))
  }

  /** The value in the heap is the JSON tree t, and its containers are those of sh. */
  ghost predicate Holds(v: Value, sh: Shape, t: Json)
    reads Foot(sh)
    decreases sh, 1
  {
    match v
    case Null => sh.Flat? && t == JNull
    case Bool(b) => sh.Flat? && t == JBool(b)
    case Num(n) => sh.Flat? && t == JNum(n)
    case Str(s) => sh.Flat? && t == JStr(s)
    case Arr(a) => sh.SArr? && sh.a == a && Separate(sh) && t.JArr? && ElemsHold(a, sh, t.elems)
    case Obj(o) => sh.SObj? && sh.o == o && Separate(sh) && t.JObj? && FieldsHold(o, sh, t.fields)
  }

  ghost predicate ElemsHold(a: array<Value>, sh: Shape, elems: seq<Json>)
    requires sh.SArr? && sh.a == a && Separate(sh)
    reads Foot(sh)
    decreases sh, 0
  {
    && |sh.elems| == |elems| == a.Length
    && forall i :: 0 <= i < |sh.elems| ==> Holds(a[i], sh.elems[i], elems[i])
  }

  ghost predicate FieldsHold(o: Fields, sh: Shape, fields: map<string, Json>)
    requires sh.SObj? && sh.o == o && Separate(sh)
    reads Foot(sh)
    decreases sh, 0
  {
    && sh.fields.Keys == fields.Keys == o.m.Keys
    && forall k :: k in sh.fields ==> Holds(o.m[k], sh.fields[k], fields[k])
  }

  /** `walkRedact`: the containers stay where they are and keep their lengths and keys; what they
      hold becomes the redacted tree. */
  method WalkRedact(rules: Rules, v: Value, hits: Hits, ghost sh: Shape, ghost t: Json) returns (r: Value)
    requires Holds(v, sh, t) && hits.Valid() && hits !in Foot(sh)
    modifies Foot(sh), hits
    ensures Holds(r, sh, RedactTree(rules, t))
    ensures hits.Valid() && hits.all == old(hits.all) + TreeHits(rules, t)
    ensures v.Arr? || v.Obj? ==> r == v
    decreases sh, 2
  {
    hide Clean, StringHits, Foot;
    match v
    case Str(s) =>
      var clean := RedactDLPString(rules, s, hits);
      return Str(clean);
    case Arr(a) =>
      WalkElems(rules, a, hits, sh, t);
      return v;
    case Obj(o) =>
      WalkFields(rules, o, hits, sh, t);
      return v;
    case _ =>
      return v;
  }

  method WalkElems(rules: Rules, a: array<Value>, hits: Hits, ghost sh: Shape, ghost t: Json)
    requires Holds(Arr(a), sh, t) && hits.Valid() && hits !in Foot(sh)
    modifies Foot(sh), hits
    ensures Holds(Arr(a), sh, RedactTree(rules, t))
    ensures hits.Valid() && hits.all == old(hits.all) + TreeHits(rules, t)
    decreases sh, 1
  {
    hide Holds, Foot, Separate, ElemsHold, RedactTree, TreeHits, ElemHits;
    HoldsArr(a, sh, t);
    ArrParts(rules, t);
    ghost var now := t.elems;
    NoElems(rules, t);
    for i := 0 to a.Length
      invariant hits.Valid() && hits.all == old(hits.all) + ElemHits(rules, t, i)
      invariant ElemsHold(a, sh, now) && |now| == |t.elems|
      invariant forall j :: 0 <= j < |now| ==> now[j] == if j < i then RedactTree(rules, t.elems[j]) else t.elems[j]
    {
      ElemHitsStep(rules, t, i);
      MultisetAssoc(old(hits.all), ElemHits(rules, t, i), TreeHits(rules, t.elems[i]));
      WalkElem(rules, a, i, hits, sh, now);
      now := now[i := RedactTree(rules, now[i])];
    }
    assert now == RedactTree(rules, t).elems;
    ArrHolds(a, sh, RedactTree(rules, t));
  }

  /** One slot of an array: nothing else in the array changes. */
  method WalkElem(rules: Rules, a: array<Value>, i: nat, hits: Hits, ghost sh: Shape, ghost now: seq<Json>)
    requires sh.SArr? && sh.a == a && Separate(sh) && ElemsHold(a, sh, now) && i < a.Length
    requires hits.Valid() && hits !in Foot(sh)
    modifies Foot(sh), hits
    ensures ElemsHold(a, sh, now[i := RedactTree(rules, now[i])])
    ensures hits.Valid() && hits.all == old(hits.all) + TreeHits(rules, now[i])
    decreases sh, 0
  {
    hide Holds, RedactTree, TreeHits;
    var x := WalkRedact(rules, a[i], hits, sh.elems[i], now[i]);
    assert forall j :: 0 <= j < a.Length && j != i ==> Holds(a[j], sh.elems[j], now[j]);
    a[i] := x;
  }

  method WalkFields(rules: Rules, o: Fields, hits: Hits, ghost sh: Shape, ghost t: Json)
    requires Holds(Obj(o), sh, t) && hits.Valid() && hits !in Foot(sh)
    modifies Foot(sh), hits
    ensures Holds(Obj(o), sh, RedactTree(rules, t))
    ensures hits.Valid() && hits.all == old(hits.all) + TreeHits(rules, t)
    decreases sh, 1
  {
    hide Holds, Foot, Separate, FieldsHold, RedactTree, TreeHits, FieldHits;
    HoldsObj(o, sh, t);
    ObjParts(rules, t);
    NoFields(rules, t);
    ghost var now := t.fields;
    var todo := o.m.Keys;
    assert t.fields.Keys - todo == {};
    while todo != {}
      invariant todo <= t.fields.Keys == now.Keys
      invariant hits.Valid() && hits.all == old(hits.all) + FieldHits(rules, t, t.fields.Keys - todo)
      invariant FieldsHold(o, sh, now)
      invariant forall k :: k in now ==> now[k] == if k in todo then t.fields[k] else RedactTree(rules, t.fields[k])
      decreases todo
    {
      var k :| k in todo;
      WalkField(rules, o, k, hits, sh, now);
      now := now[k := RedactTree(rules, now[k])];
      FieldHitsStep(rules, t, t.fields.Keys - (todo - {k}), k);
      MultisetAssoc(old(hits.all), FieldHits(rules, t, t.fields.Keys - todo), TreeHits(rules, t.fields[k]));
      assert t.fields.Keys - (todo - {k}) - {k} == t.fields.Keys - todo;
      todo := todo - {k};
    }
    assert t.fields.Keys - todo == t.fields.Keys;
    assert now == RedactTree(rules, t).fields;
    ObjHolds(o, sh, RedactTree(rules, t));
  }

  method WalkField(rules: Rules, o: Fields, k: string, hits: Hits, ghost sh: Shape, ghost now: map<string, Json>)
    requires sh.SObj? && sh.o == o && Separate(sh) && FieldsHold(o, sh, now) && k in now
    requires hits.Valid() && hits !in Foot(sh)
    modifies Foot(sh), hits
    ensures FieldsHold(o, sh, now[k := RedactTree(rules, now[k])])
    ensures hits.Valid() && hits.all == old(hits.all) + TreeHits(rules, now[k])
    decreases sh, 0
  {
    hide Holds, RedactTree, TreeHits, Separate, FieldsHold;
    FieldsParts(o, sh, now);
    FieldApart(sh, k);
    var m := o.m;
    assert forall j :: j in sh.fields ==> Holds(m[j], sh.fields[j], now[j]);
    var x := WalkRedact(rules, m[k], hits, sh.fields[k], now[k]);
    assert forall j :: j in sh.fields && j != k ==> Holds(m[j], sh.fields[j], now[j]);
    o.m := m[k := x];
    assert Holds(x, sh.fields[k], RedactTree(rules, now[k]));
    FieldsWhole(o, sh, now[k := RedactTree(rules, now[k])]);
  }

  lemma FieldsParts(o: Fields, sh: Shape, now: map<string, Json>)
    requires sh.SObj? && sh.o == o && Separate(sh) && FieldsHold(o, sh, now)
    ensures sh.fields.Keys == now.Keys == o.m.Keys
    ensures forall k :: k in sh.fields ==> Holds(o.m[k], sh.fields[k], now[k])
  {
  }

  lemma FieldsWhole(o: Fields, sh: Shape, now: map<string, Json>)
    requires sh.SObj? && sh.o == o && Separate(sh) && sh.fields.Keys == now.Keys == o.m.Keys
    requires forall k :: k in sh.fields ==> Holds(o.m[k], sh.fields[k], now[k])
    ensures FieldsHold(o, sh, now)
  {
  }

  lemma ArrParts(rules: Rules, t: Json)
    requires t.JArr?
    ensures RedactTree(rules, t).JArr? && |RedactTree(rules, t).elems| == |t.elems|
    ensures forall i :: 0 <= i < |t.elems| ==> RedactTree(rules, t).elems[i] == RedactTree(rules, t.elems[i])
    ensures TreeHits(rules, t) == ElemHits(rules, t, |t.elems|)
  {
  }

  lemma ObjParts(rules: Rules, t: Json)
    requires t.JObj?
    ensures RedactTree(rules, t).JObj? && RedactTree(rules, t).fields.Keys == t.fields.Keys
    ensures forall k :: k in t.fields ==> RedactTree(rules, t).fields[k] == RedactTree(rules, t.fields[k])
    ensures TreeHits(rules, t) == FieldHits(rules, t, t.fields.Keys)
  {
  }

  lemma FieldApart(sh: Shape, k: string)
    requires sh.SObj? && Separate(sh) && k in sh.fields
    ensures Foot(sh.fields[k]) <= Foot(sh) && sh.o in Foot(sh)
    ensures forall j :: j in sh.fields ==> Foot(sh.fields[j]) <= Foot(sh) && sh.o !in Foot(sh.fields[j])
    ensures forall j :: j in sh.fields && j != k ==> Foot(sh.fields[j]) !! Foot(sh.fields[k])
  {
  }

  lemma MultisetAssoc<T>(x: multiset<T>, y: multiset<T>, z: multiset<T>)
    ensures x + y + z == x + (y + z)
  {
  }

  lemma ElemHitsStep(rules: Rules, t: Json, i: nat)
    requires t.JArr? && i < |t.elems|
    ensures ElemHits(rules, t, i + 1) == ElemHits(rules, t, i) + TreeHits(rules, t.elems[i])
  {
  }

  lemma NoElems(rules: Rules, t: Json)
    requires t.JArr?
    ensures ElemHits(rules, t, 0) == multiset{}
  {
  }

  lemma NoFields(rules: Rules, t: Json)
    requires t.JObj?
    ensures FieldHits(rules, t, {}) == multiset{}
  {
  }

  lemma HoldsArr(a: array<Value>, sh: Shape, t: Json)
    requires Holds(Arr(a), sh, t)
    ensures sh.SArr? && sh.a == a && t.JArr? && Separate(sh) && ElemsHold(a, sh, t.elems) && |t.elems| == a.Length
  {
  }

  lemma ArrHolds(a: array<Value>, sh: Shape, t: Json)
    requires sh.SArr? && sh.a == a && t.JArr? && Separate(sh) && ElemsHold(a, sh, t.elems)
    ensures Holds(Arr(a), sh, t)
  {
  }

  lemma HoldsObj(o: Fields, sh: Shape, t: Json)
    requires Holds(Obj(o), sh, t)
    ensures sh.SObj? && sh.o == o && t.JObj? && Separate(sh) && FieldsHold(o, sh, t.fields) && t.fields.Keys == o.m.Keys
  {
  }

  lemma ObjHolds(o: Fields, sh: Shape, t: Json)
    requires sh.SObj? && sh.o == o && t.JObj? && Separate(sh) && FieldsHold(o, sh, t.fields)
    ensures Holds(Obj(o), sh, t)
  {
  }

  // ------------------------------------------------- what the rewrite means

  datatype Place = Index(i: nat) | Key(k: string)

  /** The node at the end of a path of list positions and object keys. */
  function At(t: Json, path: seq<Place>): Option<Json>
    decreases |path|
  {
    if path == [] then Some(t)
    else
      match path[0]
      case Index(i) => if t.JArr? && i < |t.elems| then At(t.elems[i], path[1..]) else None
      case Key(k) => if t.JObj? && k in t.fields then At(t.fields[k], path[1..]) else None
  }

  /** Same kind of node, same length or keys; a string is cleaned, any other leaf is as it was. */
  predicate Rewritten(rules: Rules, before: Json, after: Json) {
    match before
    case JStr(s) => after == JStr(Clean(rules, s))
    case JArr(elems) => after.JArr? && |after.elems| == |elems|
    case JObj(fields) => after.JObj? && after.fields.Keys == fields.Keys
    case _ => after == before
  }

  /** The rewritten tree has exactly the paths of the original, and every string leaf, however deep,
      has been cleaned while nothing else has changed. */
  lemma {:induction false} EveryLeafRewritten(rules: Rules, t: Json, path: seq<Place>)
    ensures match At(t, path)
            case None => At(RedactTree(rules, t), path) == None
            case Some(u) => At(RedactTree(rules, t), path).Some? && Rewritten(rules, u, At(RedactTree(rules, t), path).value)
    decreases |path|
  {
    hide Clean;
    if path != [] {
      match path[0]
      case Index(i) =>
        if t.JArr? && i < |t.elems| { EveryLeafRewritten(rules, t.elems[i], path[1..]); }
      case Key(k) =>
        if t.JObj? && k in t.fields { EveryLeafRewritten(rules, t.fields[k], path[1..]); }
    }
  }

  /** A finder only divides a text; it does not change it. */
  ghost predicate Divides(find: Finder) {
    forall s :: Joined(find(s)) == s
  }

  function Joined(segs: seq<Segment>): string {
    if segs == [] then "" else Joined(segs[..|segs|-1]) + segs[|segs|-1].s
  }

  ghost predicate WellBehaved(rules: Rules) {
    && Divides(rules.cards)
    && forall p :: p in rules.patterns ==> Divides(p.find)
  }

  lemma {:induction false} NoMatchNoChange(segs: seq<Segment>, name: string)
    requires Matches(segs, name) == multiset{}
    ensures Replaced(segs, name) == Joined(segs)
  {
    if segs != [] {
      assert name !in Matches(segs, name);
      NoMatchNoChange(segs[..|segs|-1], name);
    }
  }

  lemma {:induction false} CardsJoin(segs: seq<Segment>)
    ensures Joined(CardSegments(segs)) == Joined(segs)
  {
    if segs != [] {
      CardsJoin(segs[..|segs|-1]);
      assert CardSegments(segs)[..|segs|-1] == CardSegments(segs[..|segs|-1]);
    }
  }

  lemma {:induction false} PatternsNoChange(ps: seq<Pattern>, s: string)
    requires forall p :: p in ps ==> Divides(p.find)
    requires PatternHits(ps, s) == multiset{}
    ensures AfterPatterns(ps, s) == s
  {
    hide Replaced, Matches, Joined;
    if ps != [] {
      var p := ps[|ps|-1];
      var before := ps[..|ps|-1];
      var segs := p.find(AfterPatterns(before, s));
      assert p in ps && forall q :: q in before ==> q in ps;
      EmptySum(PatternHits(before, s), Matches(segs, p.name));
      PatternsNoChange(before, s);
      NoMatchNoChange(segs, p.name);
    }
  }

  lemma EmptySum<T>(x: multiset<T>, y: multiset<T>)
    requires x + y == multiset{}
    ensures x == multiset{} && y == multiset{}
  {
    forall e ensures x[e] == 0 && y[e] == 0 {
      assert (x + y)[e] == 0;
    }
  }

  lemma StringNoChange(rules: Rules, s: string)
    requires WellBehaved(rules) && StringHits(rules, s) == multiset{}
    ensures Clean(rules, s) == s
  {
    hide Replaced, Matches, Joined, CardSegments;
    var runs := rules.cards(AfterPatterns(rules.patterns, s));
    EmptySum(PatternHits(rules.patterns, s), Matches(CardSegments(runs), CARD));
    PatternsNoChange(rules.patterns, s);
    NoMatchNoChange(CardSegments(runs), CARD);
    CardsJoin(runs);
  }

  /** A tree without a hit is left exactly as it was. */
  lemma {:induction false} NoHitsNoChange(rules: Rules, t: Json)
    requires WellBehaved(rules) && TreeHits(rules, t) == multiset{}
    ensures RedactTree(rules, t) == t
    decreases t
  {
    hide Clean, StringHits, WellBehaved;
    match t
    case JStr(s) => StringNoChange(rules, s);
    case JArr(elems) =>
      forall i | 0 <= i < |elems| ensures RedactTree(rules, elems[i]) == elems[i] {
        ElemWithin(rules, t, i, |elems|);
        NoHitsNoChange(rules, elems[i]);
      }
    case JObj(fields) =>
      forall k | k in fields ensures RedactTree(rules, fields[k]) == fields[k] {
        FieldHitsStep(rules, t, fields.Keys, k);
        EmptySum(FieldHits(rules, t, fields.Keys - {k}), TreeHits(rules, fields[k]));
        NoHitsNoChange(rules, fields[k]);
      }
    case _ =>
  }

  lemma {:induction false} ElemWithin(rules: Rules, t: Json, i: nat, n: nat)
    requires t.JArr? && i < n <= |t.elems|
    ensures ElemHits(rules, t, n) == multiset{} ==> TreeHits(rules, t.elems[i]) == multiset{}
    decreases n
  {
    hide TreeHits;
    if ElemHits(rules, t, n) == multiset{} {
      EmptySum(ElemHits(rules, t, n - 1), TreeHits(rules, t.elems[n - 1]));
      if i < n - 1 {
        ElemWithin(rules, t, i, n - 1);
      }
    }
  }

  // -------------------------------------------------------- the whole request

  /** What goes on to the model: the request as received, the re-encoded tree, or nothing. */
  datatype Forward = Original | Encoded(v: Value) | Nothing

  /** `redactDLP`, given the outcome of decoding the request and of encoding the result. */
  method RedactDLP(rules: Rules, decoded: Option<Value>, encodes: bool, ghost sh: Shape, ghost t: Json)
    returns (out: Forward, hits: Hits, ok: bool)
    requires decoded.Some? ==> Holds(decoded.value, sh, t)
    modifies if decoded.Some? then Foot(sh) else {}
    ensures fresh(hits) && hits.Valid()
    ensures decoded.None? ==> out == Original && ok && hits.all == multiset{}
    ensures decoded.Some? ==> hits.all == TreeHits(rules, t)
    ensures ok <==> out != Nothing
    ensures !ok <==> decoded.Some? && TreeHits(rules, t) != multiset{} && !encodes
    ensures out.Encoded? ==> Holds(out.v, sh, RedactTree(rules, t))
    ensures decoded.Some? ==> (out == Original <==> TreeHits(rules, t) == multiset{})
    ensures WellBehaved(rules) && decoded.Some? && out == Original ==> RedactTree(rules, t) == t
  {
    hits := new Hits();
    if decoded.None? {
      return Original, hits, true;
    }
    var redacted := WalkRedact(rules, decoded.value, hits, sh, t);
    HitsEmpty(hits);
    if |hits.counts| == 0 {
      if WellBehaved(rules) { NoHitsNoChange(rules, t); }
      return Original, hits, true;
    }
    if !encodes {
      return Nothing, hits, false;
    }
    return Encoded(redacted), hits, true;
  }

  lemma HitsEmpty(hits: Hits)
    requires hits.Valid()
    ensures |hits.counts| == 0 <==> hits.all == multiset{}
  {
    if |hits.counts| == 0 {
      forall k ensures hits.all[k] == 0 {
        assert k !in hits.counts;
      }
    } else {
      var k :| k in hits.counts;
      assert k in hits.all;
    }
  }

  // ------------------------------------------------- the output, piece by piece

  function Concat(pieces: seq<string>): string {
    if pieces == [] then "" else Concat(pieces[..|pieces|-1]) + pieces[|pieces|-1]
  }

  /** At least 13 digits, and a checksum divisible by ten. */
  predicate CardNumber(s: string) {
    |Luhn.Digits(s)| >= 13 && Luhn.Checksum(Luhn.Digits(s)) % 10 == 0
  }

  predicate IsCard(seg: Segment) {
    seg.Match? && CardNumber(seg.s)
  }

  lemma {:induction false} ReplacedPieces(segs: seq<Segment>, name: string, pieces: seq<string>)
    requires |pieces| == |segs|
    requires forall i :: 0 <= i < |segs| ==> pieces[i] == if segs[i].Match? then "[REDACTED:" + name + "]" else segs[i].s
    ensures Replaced(segs, name) == Concat(pieces)
  {
    if segs != [] {
      ReplacedPieces(segs[..|segs|-1], name, pieces[..|pieces|-1]);
    }
  }

  /** The places of the matches. */
  function MatchesAt(segs: seq<Segment>): set<nat> {
    set i: nat | i < |segs| && segs[i].Match?
  }

  lemma LastMatchAt(segs: seq<Segment>)
    requires segs != []
    ensures var n := |segs| - 1; var before := MatchesAt(segs[..n]);
            n !in before && MatchesAt(segs) == if segs[n].Match? then before + {n} else before
  {
  }

  lemma {:induction false} MatchesCount(segs: seq<Segment>, name: string)
    ensures Matches(segs, name) == multiset{}[name := |MatchesAt(segs)|]
  {
    if segs == [] {
      assert MatchesAt(segs) == {};
    } else {
      hide MatchesAt;
      MatchesCount(segs[..|segs|-1], name);
      LastMatchAt(segs);
    }
  }

  lemma CardsOnly(rules: Rules, s: string)
    requires rules.patterns == []
    ensures Clean(rules, s) == Replaced(CardSegments(rules.cards(s)), CARD)
    ensures StringHits(rules, s) == Matches(CardSegments(rules.cards(s)), CARD)
  {
  }

  lemma CardSegmentsAt(runs: seq<Segment>)
    ensures var segs := CardSegments(runs);
            forall i :: 0 <= i < |runs| ==> (segs[i].Match? <==> IsCard(runs[i])) && segs[i].s == runs[i].s
  {
    hide Luhn.Digits, Luhn.Checksum;
  }

  /** Without patterns: each run of the text that is a card number comes out as "[REDACTED:credit_card]"
      and is one hit of that kind; every other run, and the text between, comes out as it is. */
  lemma CardsExactly(rules: Rules, s: string, pieces: seq<string>)
    requires rules.patterns == [] && |pieces| == |rules.cards(s)|
    requires forall i :: 0 <= i < |pieces| ==>
               pieces[i] == if IsCard(rules.cards(s)[i]) then "[REDACTED:credit_card]" else rules.cards(s)[i].s
    ensures Clean(rules, s) == Concat(pieces)
    ensures StringHits(rules, s) == multiset{}["credit_card" := |set i: nat | i < |pieces| && IsCard(rules.cards(s)[i])|]
  {
    hide CardNumber, Clean, StringHits, Replaced, Matches, CardSegments, Concat;
    var runs := rules.cards(s);
    var segs := CardSegments(runs);
    assert "[REDACTED:" + CARD + "]" == "[REDACTED:credit_card]";
    CardsOnly(rules, s);
    CardSegmentsAt(runs);
    ReplacedPieces(segs, CARD, pieces);
    MatchesCount(segs, CARD);
    assert MatchesAt(segs) == (set i: nat | i < |pieces| && IsCard(runs[i]));
  }

  /** A text that is one card-shaped run. */
  lemma OneRunExactly(rules: Rules, m: string)
    requires rules.patterns == [] && rules.cards(m) == [Match(m)]
    ensures CardNumber(m) ==> Clean(rules, m) == "[REDACTED:credit_card]" && StringHits(rules, m) == multiset{"credit_card"}
    ensures !CardNumber(m) ==> Clean(rules, m) == m && StringHits(rules, m) == multiset{}
  {
    hide CardNumber, Clean, StringHits;
    var piece := if CardNumber(m) then "[REDACTED:credit_card]" else m;
    CardsExactly(rules, m, [piece]);
    assert [piece][..0] == [] && Concat([piece]) == Concat([]) + piece == piece;
    var cards := set i: nat | i < |[piece]| && IsCard(rules.cards(m)[i]);
    assert cards == if CardNumber(m) then {0} else {};
  }

  /** For instance, a well-known number. */
  lemma KnownNumberRedacted(rules: Rules)
    requires rules.patterns == [] && rules.cards("4111 1111 1111 1111") == [Match("4111 1111 1111 1111")]
    ensures Clean(rules, "4111 1111 1111 1111") == "[REDACTED:credit_card]"
  {
    hide Clean, StringHits, Luhn.Digits, Luhn.Checksum;
    Luhn.KnownNumber();
    OneRunExactly(rules, "4111 1111 1111 1111");
  }

  /** The first pattern works on the text as given: each match comes out as "[REDACTED:name]" and is one
      hit of that name; the other patterns and the cards then work on the result. */
  lemma FirstPatternExactly(first: Pattern, more: seq<Pattern>, cards: Finder, s: string, pieces: seq<string>)
    requires |pieces| == |first.find(s)|
    requires forall i :: 0 <= i < |pieces| ==>
               pieces[i] == if first.find(s)[i].Match? then "[REDACTED:" + first.name + "]" else first.find(s)[i].s
    ensures var all, rest := Rules([first] + more, cards), Rules(more, cards);
      && Clean(all, s) == Clean(rest, Concat(pieces))
      && StringHits(all, s) == multiset{}[first.name := |set i: nat | i < |pieces| && first.find(s)[i].Match?|]
                               + StringHits(rest, Concat(pieces))
  {
    hide Replaced, Matches, CardSegments;
    ReplacedPieces(first.find(s), first.name, pieces);
    MatchesCount(first.find(s), first.name);
    assert MatchesAt(first.find(s)) == (set i: nat | i < |pieces| && first.find(s)[i].Match?);
    PatternsPeel(first, more, s);
    var t := Concat(pieces);
    MultisetAssoc(Matches(first.find(s), first.name), PatternHits(more, t),
                  Matches(CardSegments(cards(AfterPatterns(more, t))), CARD));
  }

  lemma {:induction false} PatternsPeel(first: Pattern, more: seq<Pattern>, s: string)
    ensures var t := Replaced(first.find(s), first.name);
      && AfterPatterns([first] + more, s) == AfterPatterns(more, t)
      && PatternHits([first] + more, s) == Matches(first.find(s), first.name) + PatternHits(more, t)
  {
    hide Replaced, Matches;
    if more == [] {
      assert ([first] + more)[..0] == [] && [first] + more == [first];
    } else {
      var init, last := more[..|more|-1], more[|more|-1];
      PatternsPeel(first, init, s);
      assert ([first] + more)[..|more|] == [first] + init;
      var t := Replaced(first.find(s), first.name);
      MultisetAssoc(Matches(first.find(s), first.name), PatternHits(init, t), Matches(last.find(AfterPatterns(init, t)), last.name));
    }
  }
}
