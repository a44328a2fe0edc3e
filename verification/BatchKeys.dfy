/** The batch key: a canonical spelling of a request's broadcast values, and when equal keys mean equal values. */
module BatchKeys {
  import opened Values
  import opened Merge
  import opened BatchPlan
  import opened BatchQueue
  import opened BatchTransparency
  import opened BatchAnswers

  /** How lists and objects are spelled out as JSON. */
  datatype Spelling = Spelling(list: seq<Value> -> string, dict: map<string, Value> -> string)

  /** What a key can tell about two values: whether they are the same up to their JSON. */
  ghost predicate Alike(sp: Spelling, v: Value, w: Value) {
    || v == w
    || (v.List? && w.List? && sp.list(v.items) == sp.list(w.items))
    || (v.Dict? && w.Dict? && sp.dict(v.entries) == sp.dict(w.entries))
  }

  /** Different lists, and different objects, are spelled differently. */
  ghost predicate Faithful(sp: Spelling) {
    && (forall a, b :: sp.list(a) == sp.list(b) ==> a == b)
    && (forall a, b :: sp.dict(a) == sp.dict(b) ==> a == b)
  }

  /** The first text goes on with `&` where the second ends. */
  predicate Resumes(a: string, b: string) {
    |b| < |a| && a[..|b|] == b && a[|b|] == '&'
  }

  /** JSON shows where it ends: no list's text goes on with `&` after another's, and no object's does. */
  ghost predicate SelfDelimiting(sp: Spelling) {
    && (forall a, b :: !Resumes(sp.list(a), sp.list(b)))
    && (forall a, b :: !Resumes(sp.dict(a), sp.dict(b)))
  }

  function Digit(d: nat): char
    requires d < 10
  {
    "0123456789"[d]
  }

  function Decimal(n: nat): (s: string)
    ensures |s| > 0 && s[0] != '-'
  {
    if n < 10 then [Digit(n)] else Decimal(n / 10) + [Digit(n % 10)]
  }

  function Number(i: int): string {
    if i < 0 then "-" + Decimal(-i) else Decimal(i)
  }

  lemma {:induction false} DecimalInjective(a: nat, b: nat)
    requires Decimal(a) == Decimal(b)
    ensures a == b
  {
    var x, y := Decimal(a), Decimal(b);
    assert x[|x| - 1] == Digit(a % 10) && y[|y| - 1] == Digit(b % 10);
    assert a % 10 == b % 10;
    if a >= 10 && b >= 10 {
      assert Decimal(a / 10) == x[..|x| - 1] && Decimal(b / 10) == y[..|y| - 1];
      DecimalInjective(a / 10, b / 10);
    }
  }

  lemma {:induction false} NumberInjective(a: int, b: int)
    requires Number(a) == Number(b)
    ensures a == b
  {
    if a < 0 && b < 0 {
      assert Decimal(-a) == Number(a)[1..] && Decimal(-b) == Number(b)[1..];
      DecimalInjective(-a, -b);
    } else if a >= 0 && b >= 0 {
      DecimalInjective(a, b);
    }
  }

  /** Values that are never compared: each fingerprint of one draws a new serial. */
  predicate Incomparable(v: Value) {
    v.Tensor? || v.Binary?
  }

  function Fingerprint(sp: Spelling, v: Value, serial: nat): string {
    match v
    case Null => "null"
    case Str(s) => "s:" + s
    case Float(bits) => "f:" + Number(bits)
    case Double(bits) => "d:" + Number(bits)
    case Int(i) => "i:" + Number(i)
    case Long(i) => "l:" + Number(i)
    case Bool(b) => if b then "b:true" else "b:false"
    case List(items) => "list:" + sp.list(items)
    case Dict(entries) => "dict:" + sp.dict(entries)
    case _ => "__opaque_" + Number(serial) + "__"
  }

  /** What of a fingerprint the value's kind does not already say. */
  function Payload(sp: Spelling, v: Value, serial: nat): string {
    match v
    case Null => ""
    case Str(s) => s
    case Float(bits) => Number(bits)
    case Double(bits) => Number(bits)
    case Int(i) => Number(i)
    case Long(i) => Number(i)
    case Bool(b) => if b then "true" else "false"
    case List(items) => sp.list(items)
    case Dict(entries) => sp.dict(entries)
    case _ => Number(serial)
  }

  /** The kind's prefix and suffix. */
  function Kind(v: Value): (string, string) {
    match v
    case Null => ("null", "")
    case Str(_) => ("s:", "")
    case Float(_) => ("f:", "")
    case Double(_) => ("d:", "")
    case Int(_) => ("i:", "")
    case Long(_) => ("l:", "")
    case Bool(_) => ("b:", "")
    case List(_) => ("list:", "")
    case Dict(_) => ("dict:", "")
    case _ => ("__opaque_", "__")
  }

  lemma {:induction false} FingerprintForm(sp: Spelling, v: Value, serial: nat)
    ensures Fingerprint(sp, v, serial) == Kind(v).0 + Payload(sp, v, serial) + Kind(v).1
  {
  }

  /** The first two characters of a fingerprint tell its kind. */
  lemma {:induction false} KindsDiffer(v: Value, w: Value, a: string, b: string)
    requires Kind(v).0 + a + Kind(v).1 == Kind(w).0 + b + Kind(w).1
    ensures Kind(v) == Kind(w) && a == b
  {
    var x, y := Kind(v).0 + a + Kind(v).1, Kind(w).0 + b + Kind(w).1;
    assert x[0] == Kind(v).0[0] && x[1] == Kind(v).0[1];
    assert y[0] == Kind(w).0[0] && y[1] == Kind(w).0[1];
    assert Kind(v) == Kind(w);
    assert a == x[|Kind(v).0|..|x| - |Kind(v).1|];
    assert b == y[|Kind(w).0|..|y| - |Kind(w).1|];
  }

  /** Fingerprints are equal exactly when the values are alike; one of an incomparable value is its serial's. */
  lemma {:induction false} FingerprintsEqualIff(sp: Spelling, v: Value, m: nat, w: Value, n: nat)
    ensures Fingerprint(sp, v, m) == Fingerprint(sp, w, n) <==>
      if Incomparable(v) || Incomparable(w) then Incomparable(v) && Incomparable(w) && m == n else Alike(sp, v, w)
  {
    if Fingerprint(sp, v, m) == Fingerprint(sp, w, n) {
      FingerprintForm(sp, v, m);
      FingerprintForm(sp, w, n);
      KindsDiffer(v, w, Payload(sp, v, m), Payload(sp, w, n));
      PayloadInjective(sp, v, m, w, n);
    }
  }

  lemma {:induction false} PayloadInjective(sp: Spelling, v: Value, m: nat, w: Value, n: nat)
    requires Kind(v) == Kind(w) && Payload(sp, v, m) == Payload(sp, w, n)
    ensures if Incomparable(v) || Incomparable(w) then Incomparable(v) && Incomparable(w) && m == n else Alike(sp, v, w)
  {
    hide Number;
    match v
    case Float(bits) => NumberInjective(bits, w.bits);
    case Double(bits) => NumberInjective(bits, w.bits);
    case Int(i) => NumberInjective(i, w.i);
    case Long(i) => NumberInjective(i, w.i);
    case Tensor(_, _) => NumberInjective(m, n);
    case Binary(_) => NumberInjective(m, n);
    case _ =>
  }

  // ----- parts -----

  function Part(sp: Spelling, name: string, v: Value, serial: nat): string {
    name + "=" + Fingerprint(sp, v, serial)
  }

  /** Where the first `c` stands. */
  function Find(s: string, c: char): (n: nat)
    ensures n <= |s|
  {
    if |s| == 0 || s[0] == c then 0 else 1 + Find(s[1..], c)
  }

  lemma {:induction false} FindAfter(a: string, c: char, b: string)
    requires c !in a
    ensures Find(a + [c] + b, c) == |a|
  {
    if |a| > 0 {
      assert (a + [c] + b)[1..] == a[1..] + [c] + b;
      FindAfter(a[1..], c, b);
    } else {
      assert a + [c] + b == [c] + b;
    }
  }

  lemma {:induction false} PartInjective(sp: Spelling, j: string, v: Value, m: nat, k: string, w: Value, n: nat)
    requires '=' !in j && '=' !in k && Part(sp, j, v, m) == Part(sp, k, w, n)
    ensures j == k && Fingerprint(sp, v, m) == Fingerprint(sp, w, n)
  {
    hide Fingerprint;
    var f, g := Fingerprint(sp, v, m), Fingerprint(sp, w, n);
    var x, y := j + ['='] + f, k + ['='] + g;
    assert x == Part(sp, j, v, m) && y == Part(sp, k, w, n);
    FindAfter(j, '=', f);
    FindAfter(k, '=', g);
    assert j == x[..|j|] && k == y[..|k|];
    assert f == x[|j| + 1..] && g == y[|k| + 1..];
  }

  // ----- joining -----

  function Join(parts: seq<string>): string {
    if |parts| == 0 then "" else if |parts| == 1 then parts[0] else parts[0] + "&" + Join(parts[1..])
  }

  ghost predicate Joinable(parts: seq<string>) {
    forall i :: 0 <= i < |parts| ==> '&' !in parts[i] && parts[i] != ""
  }

  lemma {:induction false} FindNothing(s: string, c: char)
    requires c !in s
    ensures Find(s, c) == |s|
  {
    if |s| > 0 {
      FindNothing(s[1..], c);
    }
  }

  /** The first part ends at the first separator, or is all there is. */
  lemma {:induction false} JoinHead(parts: seq<string>)
    requires |parts| > 0 && Joinable(parts)
    ensures Find(Join(parts), '&') == |parts[0]| <= |Join(parts)| && Join(parts)[..|parts[0]|] == parts[0]
    ensures |parts| > 1 <==> |parts[0]| < |Join(parts)|
    ensures |parts| > 1 ==> Join(parts)[|parts[0]| + 1..] == Join(parts[1..])
  {
    if |parts| == 1 {
      FindNothing(parts[0], '&');
    } else {
      assert Join(parts) == parts[0] + ['&'] + Join(parts[1..]);
      FindAfter(parts[0], '&', Join(parts[1..]));
    }
  }

  lemma {:induction false} JoinInjective(a: seq<string>, b: seq<string>)
    requires Joinable(a) && Joinable(b) && Join(a) == Join(b)
    ensures a == b
  {
    if |a| > 0 {
      JoinHead(a);
    }
    if |b| > 0 {
      JoinHead(b);
    }
    if |a| > 0 && |b| > 0 {
      assert a[0] == b[0];
      if |a| > 1 {
        JoinInjective(a[1..], b[1..]);
      }
      assert a == [a[0]] + a[1..] && b == [b[0]] + b[1..];
    }
  }

  // ----- sorting -----

  predicate Below(a: string, b: string) {
    |a| == 0 || (|b| > 0 && (a[0] < b[0] || (a[0] == b[0] && Below(a[1..], b[1..]))))
  }

  lemma {:induction false} BelowTotal(a: string, b: string)
    ensures Below(a, b) || Below(b, a)
    ensures Below(a, b) && Below(b, a) ==> a == b
  {
    if |a| > 0 && |b| > 0 {
      BelowTotal(a[1..], b[1..]);
      assert a == [a[0]] + a[1..] && b == [b[0]] + b[1..];
    }
  }

  lemma {:induction false} BelowTransitive(a: string, b: string, c: string)
    requires Below(a, b) && Below(b, c)
    ensures Below(a, c)
  {
    if |a| > 0 && a[0] == b[0] == c[0] {
      BelowTransitive(a[1..], b[1..], c[1..]);
    }
  }

  function Insert(x: string, sorted: seq<string>): (r: seq<string>)
    ensures forall k :: k in r <==> k == x || k in sorted
  {
    if |sorted| == 0 || Below(x, sorted[0]) then [x] + sorted
    else
      assert sorted == [sorted[0]] + sorted[1..];
      [sorted[0]] + Insert(x, sorted[1..])
  }

  function Sort(parts: seq<string>): (r: seq<string>)
    ensures forall k :: k in r <==> k in parts
  {
    if |parts| == 0 then []
    else
      assert parts == [parts[0]] + parts[1..];
      Insert(parts[0], Sort(parts[1..]))
  }

  ghost predicate StrictlySorted(s: seq<string>) {
    |s| > 0 ==>
      (forall k :: k in s[1..] ==> Below(s[0], k) && k != s[0]) && StrictlySorted(s[1..])
  }

  lemma {:induction false} InsertSorted(x: string, sorted: seq<string>)
    requires StrictlySorted(sorted) && x !in sorted
    ensures StrictlySorted(Insert(x, sorted))
  {
    if |sorted| > 0 {
      assert sorted == [sorted[0]] + sorted[1..];
      if Below(x, sorted[0]) {
        assert ([x] + sorted)[1..] == sorted;
        forall k | k in sorted ensures Below(x, k) && k != x {
          if k != sorted[0] {
            BelowTransitive(x, sorted[0], k);
          }
        }
      } else {
        InsertSorted(x, sorted[1..]);
        BelowTotal(x, sorted[0]);
        assert ([sorted[0]] + Insert(x, sorted[1..]))[1..] == Insert(x, sorted[1..]);
      }
    } else {
      assert ([x] + sorted)[1..] == sorted;
    }
  }

  ghost predicate NoRepeats(s: seq<string>) {
    forall i, j :: 0 <= i < j < |s| ==> s[i] != s[j]
  }

  lemma {:induction false} SortSorts(parts: seq<string>)
    requires NoRepeats(parts)
    ensures StrictlySorted(Sort(parts))
  {
    if |parts| > 0 {
      SortSorts(parts[1..]);
      InsertSorted(parts[0], Sort(parts[1..]));
    }
  }

  /** A strictly sorted list is determined by what is in it. */
  lemma {:induction false} SortedUnique(a: seq<string>, b: seq<string>)
    requires StrictlySorted(a) && StrictlySorted(b) && forall k :: k in a <==> k in b
    ensures a == b
  {
    assert |a| > 0 ==> a[0] in b;
    assert |b| > 0 ==> b[0] in a;
    if |a| > 0 {
      assert a == [a[0]] + a[1..] && b == [b[0]] + b[1..];
      BelowTotal(a[0], b[0]);
      assert a[0] == b[0];
      forall k ensures k in a[1..] <==> k in b[1..] {
        assert k in a <==> k in b;
      }
      SortedUnique(a[1..], b[1..]);
    }
  }

  // ----- keys -----

  /** A request's broadcast values, the order its map yields their names in, and the serials drawn for them. */
  datatype Spelled = Spelled(broadcast: Inputs, order: seq<string>, serial: string -> nat)

  ghost predicate IsSpelled(x: Spelled, inputs: Inputs, params: set<string>) {
    x.broadcast == Broadcast(inputs, params) && Enumerates(x.order, x.broadcast.Keys)
  }

  ghost predicate Listed(x: Spelled) {
    Enumerates(x.order, x.broadcast.Keys)
  }

  function PartOf(sp: Spelling, x: Spelled, name: string): string
    requires name in x.broadcast
  {
    Part(sp, name, x.broadcast[name], x.serial(name))
  }

  ghost function Parts(sp: Spelling, x: Spelled): seq<string>
    requires Listed(x)
  {
    seq(|x.order|, i requires 0 <= i < |x.order| => PartOf(sp, x, x.order[i]))
  }

  ghost function BatchKey(sp: Spelling, x: Spelled): string
    requires Listed(x)
  {
    Join(Sort(Parts(sp, x)))
  }

  /** No name holds a separator, and no spelled value the one between parts. */
  ghost predicate SeparatorFree(sp: Spelling, x: Spelled) {
    forall name :: name in x.broadcast ==>
      '=' !in name && '&' !in name && '&' !in Fingerprint(sp, x.broadcast[name], x.serial(name))
  }

  ghost predicate AllComparable(broadcast: Inputs) {
    forall name :: name in broadcast ==> !Incomparable(broadcast[name])
  }

  /** The same names with values that are alike. */
  ghost predicate AllAlike(sp: Spelling, a: Inputs, b: Inputs) {
    a.Keys == b.Keys && forall name :: name in a ==> Alike(sp, a[name], b[name])
  }

  /** Different requests draw different serials. */
  ghost predicate SerialsApart(x: Spelled, y: Spelled) {
    forall j, k :: j in x.broadcast && k in y.broadcast ==> x.serial(j) != y.serial(k)
  }

  lemma {:induction false} PartsAre(sp: Spelling, x: Spelled)
    requires Listed(x)
    ensures forall name :: name in x.broadcast ==> PartOf(sp, x, name) in Parts(sp, x)
    ensures forall part :: part in Parts(sp, x) ==> exists name :: name in x.broadcast && part == PartOf(sp, x, name)
  {
    hide PartOf;
    forall name | name in x.broadcast ensures PartOf(sp, x, name) in Parts(sp, x) {
      assert name in x.order;
      var i :| 0 <= i < |x.order| && x.order[i] == name;
      assert Parts(sp, x)[i] == PartOf(sp, x, name);
    }
  }

  lemma {:induction false} PartsJoinable(sp: Spelling, x: Spelled)
    requires Listed(x) && SeparatorFree(sp, x)
    ensures Joinable(Sort(Parts(sp, x))) && NoRepeats(Parts(sp, x))
  {
    hide Fingerprint, Sort, Enumerates;
    PartsAre(sp, x);
    forall part | part in Parts(sp, x) ensures '&' !in part && part != "" {
      var name :| name in x.broadcast && part == PartOf(sp, x, name);
      assert part == name + ['='] + Fingerprint(sp, x.broadcast[name], x.serial(name));
    }
    PartsDistinct(sp, x);
    assert forall i :: 0 <= i < |Sort(Parts(sp, x))| ==> Sort(Parts(sp, x))[i] in Sort(Parts(sp, x));
  }

  lemma {:induction false} PartsDistinct(sp: Spelling, x: Spelled)
    requires Listed(x) && SeparatorFree(sp, x)
    ensures NoRepeats(Parts(sp, x))
  {
    hide Fingerprint;
    forall i, j | 0 <= i < j < |x.order|
      ensures Parts(sp, x)[i] != Parts(sp, x)[j]
    {
      var a, b := x.order[i], x.order[j];
      if PartOf(sp, x, a) == PartOf(sp, x, b) {
        PartInjective(sp, a, x.broadcast[a], x.serial(a), b, x.broadcast[b], x.serial(b));
      }
    }
  }

  /** A value whose part is also a part of the other request is there too, and comparable. */
  lemma {:induction false} SharedPart(sp: Spelling, x: Spelled, y: Spelled, name: string)
    requires SeparatorFree(sp, x) && SeparatorFree(sp, y) && Listed(y) && SerialsApart(x, y)
    requires name in x.broadcast && PartOf(sp, x, name) in Parts(sp, y)
    ensures name in y.broadcast && Alike(sp, x.broadcast[name], y.broadcast[name]) && !Incomparable(x.broadcast[name])
  {
    PartsAre(sp, y);
    var k :| k in y.broadcast && PartOf(sp, x, name) == PartOf(sp, y, k);
    PartInjective(sp, name, x.broadcast[name], x.serial(name), k, y.broadcast[k], y.serial(k));
    FingerprintsEqualIff(sp, x.broadcast[name], x.serial(name), y.broadcast[k], y.serial(k));
  }

  /** Equal keys mean broadcast values that are alike, and the other way round, whatever order the maps are visited
      in; a request with a value that cannot be compared never shares its key. */
  lemma {:induction false} KeysEqualIff(sp: Spelling, x: Spelled, y: Spelled)
    requires Listed(x) && Listed(y) && SerialsApart(x, y)
    requires SeparatorFree(sp, x) && SeparatorFree(sp, y)
    ensures BatchKey(sp, x) == BatchKey(sp, y) <==>
      AllAlike(sp, x.broadcast, y.broadcast) && AllComparable(x.broadcast)
  {
    hide SeparatorFree, SerialsApart, Enumerates, BatchKey, AllComparable, AllAlike;
    if BatchKey(sp, x) == BatchKey(sp, y) {
      EqualKeysAgree(sp, x, y);
    }
    if AllAlike(sp, x.broadcast, y.broadcast) && AllComparable(x.broadcast) {
      AlikeBroadcastsAgree(sp, x, y);
    }
  }

  lemma {:induction false} EqualKeysShareParts(sp: Spelling, x: Spelled, y: Spelled)
    requires Listed(x) && Listed(y) && SeparatorFree(sp, x) && SeparatorFree(sp, y)
    requires BatchKey(sp, x) == BatchKey(sp, y)
    ensures forall part :: part in Parts(sp, x) <==> part in Parts(sp, y)
  {
    hide SeparatorFree, Join, Parts, Enumerates, Joinable, NoRepeats;
    PartsJoinable(sp, x);
    PartsJoinable(sp, y);
    JoinInjective(Sort(Parts(sp, x)), Sort(Parts(sp, y)));
  }

  /** Every value of `x` whose part `y` shares is in `y` too, and comparable. */
  lemma {:induction false} SharedPartsAgree(sp: Spelling, x: Spelled, y: Spelled)
    requires Listed(x) && Listed(y) && SerialsApart(x, y)
    requires SeparatorFree(sp, x) && SeparatorFree(sp, y)
    requires forall part :: part in Parts(sp, x) ==> part in Parts(sp, y)
    ensures forall name :: name in x.broadcast ==>
      name in y.broadcast && Alike(sp, x.broadcast[name], y.broadcast[name]) && !Incomparable(x.broadcast[name])
  {
    hide SeparatorFree, SerialsApart, Enumerates, PartOf, Parts, Alike, Incomparable;
    PartsAre(sp, x);
    forall name | name in x.broadcast
      ensures name in y.broadcast && Alike(sp, x.broadcast[name], y.broadcast[name])
      ensures !Incomparable(x.broadcast[name])
    {
      SharedPart(sp, x, y, name);
    }
  }

  lemma {:induction false} EqualKeysAgree(sp: Spelling, x: Spelled, y: Spelled)
    requires Listed(x) && Listed(y) && SerialsApart(x, y)
    requires SeparatorFree(sp, x) && SeparatorFree(sp, y)
    requires BatchKey(sp, x) == BatchKey(sp, y)
    ensures AllAlike(sp, x.broadcast, y.broadcast) && AllComparable(x.broadcast)
  {
    hide SeparatorFree, SerialsApart, Enumerates, Parts, BatchKey, Incomparable, Alike;
    assert SerialsApart(y, x) by {
      ApartEitherWay(x, y);
    }
    EqualKeysShareParts(sp, x, y);
    SharedPartsAgree(sp, x, y);
    SharedPartsAgree(sp, y, x);
  }

  lemma ApartEitherWay(x: Spelled, y: Spelled)
    ensures SerialsApart(x, y) <==> SerialsApart(y, x)
  {
  }

  /** A comparable value's part is that of any value like it, whatever the serials. */
  lemma {:induction false} AlikePart(sp: Spelling, x: Spelled, y: Spelled, name: string)
    requires AllAlike(sp, x.broadcast, y.broadcast) && AllComparable(x.broadcast) && name in x.broadcast
    ensures PartOf(sp, x, name) == PartOf(sp, y, name)
  {
    hide Fingerprint;
    FingerprintsEqualIff(sp, x.broadcast[name], x.serial(name), y.broadcast[name], y.serial(name));
  }

  lemma {:induction false} AlikeParts(sp: Spelling, x: Spelled, y: Spelled)
    requires Listed(x) && Listed(y) && AllAlike(sp, x.broadcast, y.broadcast) && AllComparable(x.broadcast)
    ensures forall part :: part in Parts(sp, x) <==> part in Parts(sp, y)
  {
    hide PartOf, Parts, Enumerates, AllComparable, Alike;
    PartsAre(sp, x);
    PartsAre(sp, y);
    forall name | name in x.broadcast ensures PartOf(sp, x, name) == PartOf(sp, y, name) {
      AlikePart(sp, x, y, name);
    }
  }

  lemma {:induction false} AlikeBroadcastsAgree(sp: Spelling, x: Spelled, y: Spelled)
    requires Listed(x) && Listed(y) && SeparatorFree(sp, x) && SeparatorFree(sp, y)
    requires AllAlike(sp, x.broadcast, y.broadcast) && AllComparable(x.broadcast)
    ensures BatchKey(sp, x) == BatchKey(sp, y)
  {
    hide SeparatorFree, Parts, Joinable, NoRepeats, Enumerates, StrictlySorted, AllAlike, AllComparable;
    PartsJoinable(sp, x);
    PartsJoinable(sp, y);
    AlikeParts(sp, x, y);
    SortSorts(Parts(sp, x));
    SortSorts(Parts(sp, y));
    SortedUnique(Sort(Parts(sp, x)), Sort(Parts(sp, y)));
  }

  // ----- when keys collide -----

  lemma {:induction false} InsertLength(x: string, sorted: seq<string>)
    ensures |Insert(x, sorted)| == |sorted| + 1
  {
    if |sorted| > 0 {
      InsertLength(x, sorted[1..]);
    }
  }

  lemma {:induction false} SortLength(parts: seq<string>)
    ensures |Sort(parts)| == |parts|
  {
    if |parts| > 0 {
      SortLength(parts[1..]);
      InsertLength(parts[0], Sort(parts[1..]));
    }
  }

  lemma {:induction false} OrderSize(order: seq<string>)
    requires NoRepeats(order)
    ensures |set k | k in order| == |order|
  {
    if |order| > 0 {
      OrderSize(order[1..]);
      assert (set k | k in order) == {order[0]} + set k | k in order[1..];
    }
  }

  lemma {:induction false} PartsCount(sp: Spelling, x: Spelled)
    requires Listed(x)
    ensures |Sort(Parts(sp, x))| == |x.order| == |x.broadcast|
  {
    SortLength(Parts(sp, x));
    OrderSize(x.order);
    assert (set k | k in x.order) == x.broadcast.Keys;
    assert |x.broadcast| == |x.broadcast.Keys|;
  }

  /** What follows part `i` in the joined key. */
  function After(parts: seq<string>, i: nat): string
    requires i < |parts|
  {
    if i + 1 == |parts| then "" else "&" + Join(parts[i + 1..])
  }

  lemma {:induction false} JoinAround(parts: seq<string>, i: nat) returns (prefix: string)
    requires i < |parts|
    ensures Join(parts) == prefix + parts[i] + After(parts, i)
  {
    assert Join(parts) == parts[0] + After(parts, 0);
    hide Join;
    if i == 0 {
      prefix := "";
    } else {
      var rest := JoinAround(parts[1..], i - 1);
      assert parts[1..][i..] == parts[i + 1..];
      assert After(parts[1..], i - 1) == After(parts, i);
      prefix := parts[0] + "&" + rest;
      Regroup(parts[0], rest, parts[i], After(parts, i));
    }
  }

  lemma Regroup(a: string, b: string, c: string, d: string)
    ensures a + ("&" + (b + c + d)) == (a + "&" + b) + c + d
  {
  }

  lemma {:induction false} JoinKeeps(parts: seq<string>, i: nat, c: char)
    requires i < |parts| && c in parts[i]
    ensures c in Join(parts)
  {
    if |parts| > 1 {
      assert Join(parts) == parts[0] + "&" + Join(parts[1..]);
      if i > 0 {
        JoinKeeps(parts[1..], i - 1, c);
      }
    }
  }

  lemma {:induction false} JoinSeparates(parts: seq<string>)
    requires |parts| > 1
    ensures '&' in Join(parts)
  {
    assert Join(parts)[|parts[0]|] == '&';
  }

  /** A serial that none of the request's values has. */
  function Unused(serial: string -> nat, order: seq<string>): (m: nat)
    ensures forall i :: 0 <= i < |order| ==> serial(order[i]) < m
  {
    if |order| == 0 then 0
    else
      var rest := Unused(serial, order[..|order| - 1]);
      if serial(order[|order| - 1]) < rest then rest else serial(order[|order| - 1]) + 1
  }

  function Lone(name: string, v: Value, serial: nat): Spelled {
    Spelled(map[name := v], [name], _ => serial)
  }

  lemma {:induction false} LoneKey(sp: Spelling, name: string, v: Value, serial: nat)
    ensures Listed(Lone(name, v, serial)) && BatchKey(sp, Lone(name, v, serial)) == Part(sp, name, v, serial)
  {
    var x := Lone(name, v, serial);
    hide Fingerprint;
    assert Parts(sp, x) == [Part(sp, name, v, serial)];
    assert Sort([Part(sp, name, v, serial)]) == [Part(sp, name, v, serial)];
  }

  /** The value's part is the last one of the key. */
  ghost predicate SpelledLast(sp: Spelling, y: Spelled, name: string)
    requires Listed(y)
  {
    var parts := Sort(Parts(sp, y));
    name in y.broadcast && |parts| > 0 && parts[|parts| - 1] == PartOf(sp, y, name)
  }

  /** The part stands for more than itself: a text takes in whatever is spelled after it, and the name of a comparable
      value that is spelled last takes in whatever is spelled before it. */
  ghost predicate Absorbs(sp: Spelling, y: Spelled, name: string)
    requires Listed(y) && name in y.broadcast
  {
    y.broadcast[name].Str? || (SpelledLast(sp, y, name) && !Incomparable(y.broadcast[name]))
  }

  lemma {:induction false} NameOf(sp: Spelling, y: Spelled, i: nat) returns (name: string)
    requires Listed(y) && i < |Sort(Parts(sp, y))|
    ensures name in y.broadcast && Sort(Parts(sp, y))[i] == PartOf(sp, y, name)
  {
    PartsAre(sp, y);
    hide Parts, PartOf, Sort, Enumerates;
    assert Sort(Parts(sp, y))[i] in Sort(Parts(sp, y));
    name :| name in y.broadcast && Sort(Parts(sp, y))[i] == PartOf(sp, y, name);
  }

  lemma {:induction false} PlaceOf(sp: Spelling, y: Spelled, name: string) returns (i: nat)
    requires Listed(y) && name in y.broadcast
    ensures i < |Sort(Parts(sp, y))| && Sort(Parts(sp, y))[i] == PartOf(sp, y, name)
    ensures SpelledLast(sp, y, name) ==> i == |Sort(Parts(sp, y))| - 1
  {
    var parts := Sort(Parts(sp, y));
    PartsAre(sp, y);
    hide Sort, Parts, PartOf, Enumerates;
    if SpelledLast(sp, y, name) {
      i := |parts| - 1;
    } else {
      assert PartOf(sp, y, name) in parts;
      i :| i < |parts| && parts[i] == PartOf(sp, y, name);
    }
  }

  lemma {:induction false} KeyAroundPart(sp: Spelling, y: Spelled, name: string)
    returns (prefix: string, suffix: string)
    requires Listed(y) && name in y.broadcast
    ensures BatchKey(sp, y) == prefix + PartOf(sp, y, name) + suffix
    ensures SpelledLast(sp, y, name) ==> suffix == ""
  {
    hide Sort, Parts, PartOf, Join, Enumerates, SpelledLast;
    var parts := Sort(Parts(sp, y));
    var i := PlaceOf(sp, y, name);
    prefix := JoinAround(parts, i);
    suffix := After(parts, i);
  }

  /** Separators anywhere or not, a request of two or more broadcast values of which one absorbs its neighbours shares
      its key with a request that has one value. */
  lemma {:induction false} ManyValuesCollide(sp: Spelling, y: Spelled, name: string) returns (x: Spelled)
    requires Listed(y) && |y.broadcast| >= 2 && name in y.broadcast && Absorbs(sp, y, name)
    ensures Listed(x) && SerialsApart(x, y) && |x.broadcast| == 1 && BatchKey(sp, x) == BatchKey(sp, y)
  {
    hide BatchKey, PartOf, Part, SpelledLast;
    var prefix, suffix := KeyAroundPart(sp, y, name);
    var v := y.broadcast[name];
    var w := if v.Str? then Str(v.s + suffix) else v;
    var serial := Unused(y.serial, y.order);
    x := Lone(prefix + name, w, serial);
    LoneKey(sp, prefix + name, w, serial);
    LongPart(sp, y, name, prefix, suffix, serial);
    forall k | k in y.broadcast ensures y.serial(k) < serial {
      assert k in y.order;
    }
  }

  lemma LongPart(sp: Spelling, y: Spelled, name: string, prefix: string, suffix: string, serial: nat)
    requires name in y.broadcast
    requires y.broadcast[name].Str? || (suffix == "" && !Incomparable(y.broadcast[name]))
    ensures var v := y.broadcast[name];
            Part(sp, prefix + name, if v.Str? then Str(v.s + suffix) else v, serial)
            == prefix + PartOf(sp, y, name) + suffix
  {
    var v := y.broadcast[name];
    var f, g := Fingerprint(sp, v, y.serial(name)), Fingerprint(sp, if v.Str? then Str(v.s + suffix) else v, serial);
    assert g == f + suffix;
    hide Fingerprint;
    assert (prefix + name) + "=" + (f + suffix) == prefix + (name + "=" + f) + suffix;
  }

  /** No name and no spelled value holds either separator. */
  ghost predicate Plain(sp: Spelling, y: Spelled) {
    forall name :: name in y.broadcast ==>
      && '=' !in name && '&' !in name
      && '=' !in Fingerprint(sp, y.broadcast[name], y.serial(name))
      && '&' !in Fingerprint(sp, y.broadcast[name], y.serial(name))
  }

  /** A string with one `=` splits in one way. */
  lemma {:induction false} OneSplit(a: string, f: string, b: string, g: string)
    requires a + "=" + f == b + "=" + g && '=' !in b && '=' !in g
    ensures a == b && f == g
  {
    var s, t := a + ['='] + f, b + ['='] + g;
    forall i | 0 <= i < |t| ensures t[i] == '=' ==> i == |b| {
      if i < |b| {
        assert t[i] == b[i];
      } else if i > |b| {
        assert t[i] == g[i - |b| - 1];
      }
    }
    assert s == t && s[|a|] == '=';
    assert a == s[..|a|] && b == t[..|b|];
    assert f == s[|a| + 1..] && g == t[|b| + 1..];
  }

  /** A plain request with one value shares its key with no request that differs from it, separators or not. */
  lemma {:induction false} OneValueDecides(sp: Spelling, x: Spelled, y: Spelled)
    requires Listed(x) && Listed(y) && SerialsApart(x, y) && Plain(sp, y)
    requires |y.broadcast| == 1 && BatchKey(sp, x) == BatchKey(sp, y)
    ensures AllAlike(sp, x.broadcast, y.broadcast)
  {
    hide Fingerprint, Sort, Alike;
    PartsCount(sp, x);
    PartsCount(sp, y);
    var b := y.order[0];
    assert b in y.order;
    LoneOrderKey(sp, y);
    var g := Fingerprint(sp, y.broadcast[b], y.serial(b));
    assert BatchKey(sp, y) == b + ['='] + g;
    assert '&' !in BatchKey(sp, y) && BatchKey(sp, y) != "";
    KeyShowsCount(sp, x);
    assert |x.order| == 1;
    var a := x.order[0];
    assert a in x.order;
    LoneOrderKey(sp, x);
    OneSplit(a, Fingerprint(sp, x.broadcast[a], x.serial(a)), b, g);
    FingerprintsEqualIff(sp, x.broadcast[a], x.serial(a), y.broadcast[b], y.serial(b));
    assert forall k :: k in x.broadcast <==> k in x.order;
    assert forall k :: k in y.broadcast <==> k in y.order;
  }

  // ----- several values that decide -----

  /** What the part spells after its first `=`. */
  function Tail(part: string): string {
    if Find(part, '=') < |part| then part[Find(part, '=') + 1..] else ""
  }

  /** One `=`, and no separator between parts. */
  ghost predicate CleanPart(part: string) {
    '&' !in part && Find(part, '=') < |part| && part[Find(part, '=')] == '=' && '=' !in Tail(part)
  }

  lemma {:induction false} PlainPart(sp: Spelling, y: Spelled, name: string)
    requires name in y.broadcast && Plain(sp, y)
    ensures CleanPart(PartOf(sp, y, name))
    ensures Tail(PartOf(sp, y, name)) == Fingerprint(sp, y.broadcast[name], y.serial(name))
  {
    hide Fingerprint;
    var f := Fingerprint(sp, y.broadcast[name], y.serial(name));
    assert PartOf(sp, y, name) == name + ['='] + f;
    FindAfter(name, '=', f);
  }

  lemma {:induction false} OneEquals(part: string, i: nat)
    requires CleanPart(part) && i < |part| && part[i] == '='
    ensures i == Find(part, '=') && part[i + 1..] == Tail(part)
  {
    FindIsFirst(part, '=');
    var e := Find(part, '=');
    forall j | e < j < |part| ensures part[j] != '=' {
      assert part[j] == Tail(part)[j - e - 1];
    }
  }

  /** Wherever a key of clean parts is split at an `=`, what follows starts with some part's value. */
  lemma {:induction false} SplitPoint(parts: seq<string>, a: string, f: string) returns (c: nat)
    requires |parts| > 0 && Join(parts) == a + "=" + f
    requires forall i :: 0 <= i < |parts| ==> CleanPart(parts[i])
    ensures c < |parts| && f == Tail(parts[c]) + After(parts, c)
  {
    hide CleanPart, Tail, Find;
    var p, key := parts[0], Join(parts);
    assert key == p + After(parts, 0);
    assert key[|a|] == '=' && f == key[|a| + 1..];
    if |a| < |p| {
      OneEquals(p, |a|);
      assert key[|a| + 1..] == p[|a| + 1..] + After(parts, 0);
      c := 0;
    } else {
      assert |parts| > 1 && |a| > |p|;
      hide Join;
      var b := a[|p| + 1..];
      assert key == p + ("&" + Join(parts[1..]));
      assert Join(parts[1..]) == key[|p| + 1..] == b + "=" + f;
      var d := SplitPoint(parts[1..], b, f);
      AfterTail(parts, d);
      c := d + 1;
    }
  }

  lemma AfterTail(parts: seq<string>, d: nat)
    requires d + 1 < |parts|
    ensures After(parts[1..], d) == After(parts, d + 1)
  {
    assert parts[1..][d + 1..] == parts[d + 2..];
  }

  lemma {:induction false} FindIsFirst(s: string, c: char)
    ensures forall i :: 0 <= i < Find(s, c) ==> s[i] != c
  {
    if |s| > 0 && s[0] != c {
      FindIsFirst(s[1..], c);
      forall i | 0 <= i < Find(s, c) ensures s[i] != c {
        assert i > 0 ==> s[i] == s[1..][i - 1];
      }
    }
  }

  lemma {:induction false} DecimalHolds(n: nat)
    ensures '&' !in Decimal(n)
  {
    if n >= 10 {
      DecimalHolds(n / 10);
    }
  }

  lemma {:induction false} NumberHolds(i: int)
    ensures '&' !in Number(i)
  {
    DecimalHolds(if i < 0 then -i else i);
  }

  /** What goes on where a fingerprint ends is of the same kind. */
  lemma {:induction false} ResumesInKind(sp: Spelling, v: Value, m: nat, w: Value, n: nat)
    requires Resumes(Fingerprint(sp, w, n), Fingerprint(sp, v, m))
    ensures Kind(v) == Kind(w) && '&' in Fingerprint(sp, w, n)
    ensures Kind(v).1 == "" ==> Resumes(Payload(sp, w, n), Payload(sp, v, m))
  {
    var f, g := Fingerprint(sp, v, m), Fingerprint(sp, w, n);
    FingerprintForm(sp, v, m);
    FingerprintForm(sp, w, n);
    hide Fingerprint, Payload;
    assert f[0] == Kind(v).0[0] && f[1] == Kind(v).0[1];
    assert g[0] == Kind(w).0[0] && g[1] == Kind(w).0[1];
    assert g[..|f|][0] == f[0] && g[..|f|][1] == f[1];
    assert Kind(v) == Kind(w);
    if Kind(v).1 == "" {
      var x, y := Payload(sp, v, m), Payload(sp, w, n);
      assert f == Kind(v).0 + x && g == Kind(v).0 + y;
      ResumesAfter(Kind(v).0, x, y);
    }
  }

  lemma ResumesAfter(prefix: string, x: string, y: string)
    requires Resumes(prefix + y, prefix + x)
    ensures Resumes(y, x)
  {
    var p, n := |prefix|, |prefix + x|;
    assert y[..|x|] == (prefix + y)[..n][p..] && x == (prefix + x)[p..];
    assert y[|x|] == (prefix + y)[n];
  }

  lemma {:induction false} NoSeparator(sp: Spelling, v: Value, serial: nat)
    ensures v.Str? || v.List? || v.Dict? || '&' !in Fingerprint(sp, v, serial)
  {
    hide Number;
    match v
    case Float(bits) => NumberHolds(bits);
    case Double(bits) => NumberHolds(bits);
    case Int(i) => NumberHolds(i);
    case Long(i) => NumberHolds(i);
    case _ => NumberHolds(serial);
  }

  /** Only a text goes on with `&` after another value's fingerprint. */
  lemma {:induction false} OnlyTextResumes(sp: Spelling, v: Value, m: nat, w: Value, n: nat)
    requires SelfDelimiting(sp) && Resumes(Fingerprint(sp, w, n), Fingerprint(sp, v, m))
    ensures v.Str?
  {
    ResumesInKind(sp, v, m, w, n);
    NoSeparator(sp, w, n);
    hide Fingerprint, Resumes;
  }

  /** A plain request of several values, none of them a text and the one spelled last incomparable, shares its key
      with no other. */
  lemma {:induction false} ManyValuesDecide(sp: Spelling, x: Spelled, y: Spelled)
    requires SelfDelimiting(sp) && Listed(x) && Listed(y) && Plain(sp, y)
    requires |y.broadcast| > 0 && forall name :: name in y.broadcast ==> !Absorbs(sp, y, name)
    requires BatchKey(sp, x) == BatchKey(sp, y)
    ensures !SerialsApart(x, y)
  {
    hide Plain, PartOf, Parts, BatchKey, Enumerates, Fingerprint, SelfDelimiting, SerialsApart, SpelledLast;
    var k, n, suffix := LastValueStarts(sp, x, y);
    var v, w := y.broadcast[k], x.broadcast[n];
    if suffix != "" {
      OnlyTextResumes(sp, v, y.serial(k), w, x.serial(n));
    } else {
      SameSerial(sp, x, y, n, k);
    }
  }

  lemma {:induction false} SameSerial(sp: Spelling, x: Spelled, y: Spelled, n: string, k: string)
    requires n in x.broadcast && k in y.broadcast && Incomparable(y.broadcast[k])
    requires Fingerprint(sp, x.broadcast[n], x.serial(n)) == Fingerprint(sp, y.broadcast[k], y.serial(k))
    ensures !SerialsApart(x, y)
  {
    FingerprintsEqualIff(sp, x.broadcast[n], x.serial(n), y.broadcast[k], y.serial(k));
  }

  lemma {:induction false} LastName(sp: Spelling, y: Spelled) returns (name: string)
    requires Listed(y) && |y.broadcast| > 0
    ensures SpelledLast(sp, y, name)
  {
    PartsCount(sp, y);
    hide Parts, PartOf, Sort, Enumerates;
    name := NameOf(sp, y, |y.broadcast| - 1);
  }

  lemma {:induction false} PlainParts(sp: Spelling, y: Spelled)
    requires Listed(y) && Plain(sp, y)
    ensures forall i :: 0 <= i < |Sort(Parts(sp, y))| ==> CleanPart(Sort(Parts(sp, y))[i])
  {
    hide Plain, Parts, PartOf, Sort, CleanPart, Enumerates;
    forall i | 0 <= i < |Sort(Parts(sp, y))| ensures CleanPart(Sort(Parts(sp, y))[i]) {
      var name := NameOf(sp, y, i);
      PlainPart(sp, y, name);
    }
  }

  /** Two equal keys: the value that one spells last starts as some value of the other's, which is itself last if
      nothing else follows it. */
  lemma {:induction false} LastValueStarts(sp: Spelling, x: Spelled, y: Spelled)
    returns (k: string, n: string, suffix: string)
    requires Listed(x) && Listed(y) && Plain(sp, y) && |y.broadcast| > 0 && BatchKey(sp, x) == BatchKey(sp, y)
    ensures k in y.broadcast && n in x.broadcast
    ensures Fingerprint(sp, x.broadcast[n], x.serial(n)) == Fingerprint(sp, y.broadcast[k], y.serial(k)) + suffix
    ensures if suffix == "" then SpelledLast(sp, y, k) else suffix[0] == '&'
  {
    NotEmptyToo(sp, x, y);
    n := LastName(sp, x);
    var prefix, none := KeyAroundPart(sp, x, n);
    var f := Fingerprint(sp, x.broadcast[n], x.serial(n));
    assert BatchKey(sp, y) == (prefix + n) + "=" + f by {
      hide BatchKey, Fingerprint, SpelledLast;
      assert PartOf(sp, x, n) == n + "=" + f;
    }
    k, suffix := ValueStarts(sp, y, prefix + n, f);
  }

  lemma {:induction false} ValueStarts(sp: Spelling, y: Spelled, a: string, f: string)
    returns (k: string, suffix: string)
    requires Listed(y) && Plain(sp, y) && |y.broadcast| > 0 && BatchKey(sp, y) == a + "=" + f
    ensures k in y.broadcast && f == Fingerprint(sp, y.broadcast[k], y.serial(k)) + suffix
    ensures if suffix == "" then SpelledLast(sp, y, k) else suffix[0] == '&'
  {
    hide Plain, Parts, PartOf, Enumerates, Fingerprint, Sort, Join, Tail, CleanPart, Find;
    var parts := Sort(Parts(sp, y));
    assert |parts| > 0 by {
      PartsCount(sp, y);
    }
    PlainParts(sp, y);
    var c := SplitPoint(parts, a, f);
    k := NameOf(sp, y, c);
    PlainPart(sp, y, k);
    suffix := After(parts, c);
  }

  lemma {:induction false} NotEmptyToo(sp: Spelling, x: Spelled, y: Spelled)
    requires Listed(x) && Listed(y) && |y.broadcast| > 0 && BatchKey(sp, x) == BatchKey(sp, y)
    ensures |x.broadcast| > 0
  {
    hide BatchKey, Enumerates;
    PartsCount(sp, x);
    PartsCount(sp, y);
    KeyShowsCount(sp, x);
    KeyShowsCount(sp, y);
  }

  lemma {:induction false} LoneOrderKey(sp: Spelling, x: Spelled)
    requires Listed(x) && |x.order| == 1
    ensures x.order[0] in x.order && BatchKey(sp, x) == PartOf(sp, x, x.order[0])
  {
    hide PartOf;
    assert x.order[0] in x.order;
    assert Parts(sp, x) == [PartOf(sp, x, x.order[0])];
    assert Sort([PartOf(sp, x, x.order[0])]) == [PartOf(sp, x, x.order[0])];
  }

  /** A key with a value holds `=`, and one with more holds `&`. */
  lemma {:induction false} KeyShowsCount(sp: Spelling, x: Spelled)
    requires Listed(x)
    ensures |x.order| == 0 ==> BatchKey(sp, x) == ""
    ensures |x.order| > 0 ==> '=' in BatchKey(sp, x)
    ensures |x.order| > 1 ==> '&' in BatchKey(sp, x)
  {
    hide Fingerprint;
    PartsCount(sp, x);
    PartsAre(sp, x);
    var parts := Sort(Parts(sp, x));
    if |x.order| > 0 {
      assert parts[0] in parts;
      var name :| name in x.broadcast && parts[0] == PartOf(sp, x, name);
      assert parts[0][|name|] == '=';
      JoinKeeps(parts, 0, '=');
      if |x.order| > 1 {
        JoinSeparates(parts);
      }
    }
  }

  lemma {:induction false} NoValueDecides(sp: Spelling, x: Spelled, y: Spelled)
    requires Listed(x) && Listed(y) && |y.broadcast| == 0 && BatchKey(sp, x) == BatchKey(sp, y)
    ensures AllAlike(sp, x.broadcast, y.broadcast)
  {
    hide BatchKey;
    PartsCount(sp, x);
    PartsCount(sp, y);
    KeyShowsCount(sp, x);
    KeyShowsCount(sp, y);
    assert |x.broadcast| == 0;
    assert x.broadcast == map[] && y.broadcast == map[];
  }

  /** The key tells a plain request apart from every other one if and only if it has at most one broadcast value, or
      none of its values is a text and the one spelled last is incomparable. */
  lemma {:induction false} KeyDecidesIff(sp: Spelling, y: Spelled)
    requires SelfDelimiting(sp) && Listed(y) && Plain(sp, y)
    ensures (forall x :: Listed(x) && SerialsApart(x, y) && BatchKey(sp, x) == BatchKey(sp, y) ==>
              AllAlike(sp, x.broadcast, y.broadcast)) <==>
            |y.broadcast| <= 1 || forall name :: name in y.broadcast ==> !Absorbs(sp, y, name)
  {
    hide SelfDelimiting, Plain, BatchKey, Enumerates, SerialsApart, Absorbs, Alike;
    if |y.broadcast| >= 2 && exists name :: name in y.broadcast && Absorbs(sp, y, name) {
      var name :| name in y.broadcast && Absorbs(sp, y, name);
      var x := ManyValuesCollide(sp, y, name);
      assert |x.broadcast.Keys| == 1 && |y.broadcast.Keys| >= 2;
      assert !AllAlike(sp, x.broadcast, y.broadcast);
    } else {
      forall x | Listed(x) && SerialsApart(x, y) && BatchKey(sp, x) == BatchKey(sp, y)
        ensures AllAlike(sp, x.broadcast, y.broadcast)
      {
        if |y.broadcast| == 0 {
          NoValueDecides(sp, x, y);
        } else if |y.broadcast| == 1 {
          OneValueDecides(sp, x, y);
        } else {
          ManyValuesDecide(sp, x, y);
        }
      }
    }
  }

  /** One such pair: nothing in the second request holds a separator. */
  lemma {:induction false} SeparatorsCollide(sp: Spelling, serial: string -> nat)
    ensures var x := Lone("a=s:1&b", Str("2"), 0);
            var y := Spelled(map["a" := Str("1"), "b" := Str("2")], ["a", "b"], serial);
            Listed(x) && Listed(y) && BatchKey(sp, x) == BatchKey(sp, y) && !AllAlike(sp, x.broadcast, y.broadcast)
  {
    LoneKey(sp, "a=s:1&b", Str("2"), 0);
    assert Part(sp, "a=s:1&b", Str("2"), 0) == "a=s:1&b=s:2";
    var y := Spelled(map["a" := Str("1"), "b" := Str("2")], ["a", "b"], serial);
    assert PartOf(sp, y, "a") == "a=s:1";
    assert PartOf(sp, y, "b") == "b=s:2";
    assert Parts(sp, y) == ["a=s:1", "b=s:2"];
    hide PartOf, Parts, Part;
    assert ["a=s:1", "b=s:2"][1..] == ["b=s:2"];
    assert Sort(["b=s:2"]) == ["b=s:2"];
    assert Below("a=s:1", "b=s:2");
    assert Sort(["a=s:1", "b=s:2"]) == ["a=s:1", "b=s:2"];
    assert Join(["a=s:1", "b=s:2"]) == "a=s:1" + "&" + "b=s:2";
    assert "b" in y.broadcast && "b" !in Lone("a=s:1&b", Str("2"), 0).broadcast;
  }

  // ----- transparency, from the keys -----

  /** Each item's key is the one its own inputs spell, with serials apart from every other item's. */
  ghost predicate Keyed(sp: Spelling, batch: seq<Item>, spelled: seq<Spelled>, params: set<string>) {
    && |spelled| == |batch|
    && (forall i :: 0 <= i < |batch| ==>
          IsSpelled(spelled[i], batch[i].inputs, params) && SeparatorFree(sp, spelled[i])
          && batch[i].key == BatchKey(sp, spelled[i]))
    && (forall i, j :: 0 <= i < |batch| && 0 <= j < |batch| && i != j ==> SerialsApart(spelled[i], spelled[j]))
  }

  /** Requests filed under one key agree on every parameter that is not batched: what the key is for. */
  lemma {:induction false} SameKeySameParameters(
      sp: Spelling, batch: seq<Item>, spelled: seq<Spelled>, params: set<string>, i: nat, j: nat, name: string)
    requires Faithful(sp) && Keyed(sp, batch, spelled, params) && i < |batch| && j < |batch|
    requires batch[i].key == batch[j].key && name !in params
    ensures name in batch[i].inputs <==> name in batch[j].inputs
    ensures name in batch[i].inputs ==> batch[i].inputs[name] == batch[j].inputs[name]
  {
    hide Faithful, SeparatorFree, BatchKey, Enumerates, SerialsApart;
    if i != j {
      EqualKeysAgree(sp, spelled[i], spelled[j]);
      AlikeIsEqual(sp, spelled[i].broadcast, spelled[j].broadcast);
      assert name in Broadcast(batch[i].inputs, params) <==> name in batch[i].inputs;
      assert name in Broadcast(batch[j].inputs, params) <==> name in batch[j].inputs;
    }
  }

  lemma AlikeIsEqual(sp: Spelling, a: Inputs, b: Inputs)
    requires Faithful(sp) && AllAlike(sp, a, b)
    ensures a == b
  {
  }

  /** The same for a batch flushed under one key: nothing has to be taken on trust about the broadcast values the
      batch shares. */
  lemma {:induction false} KeyedFlushIsTransparentIff(
      sp: Spelling, batch: seq<Item>, spelled: seq<Spelled>, params: set<string>, predict: Predictor,
      answers: seq<Answer>, m: RowModel)
    requires Faithful(sp) && Keyed(sp, batch, spelled, params)
    requires forall j :: 0 <= j < |batch| ==> batch[j].key == batch[0].key
    requires ReturnsWellFormed(predict) && Answered(batch, params, predict, answers) && |batch| > 0
    requires RowWise(predict, m, params) && AllReady(batch, params) && AllShaped(batch, params, m)
    ensures AnsweredAsFirst(batch, predict, answers) <==> |batch| == 1 || MergesSafely(batch, params, m)
    ensures |batch| == 1 || MergesSafely(batch, params, m) ==>
      (AnsweredAsAlone(batch, predict, answers) <==> AccelerationsAgree(batch, predict))
    ensures AccelerationsAgree(batch, predict) ==>
      (AnsweredAsAlone(batch, predict, answers) <==> |batch| == 1 || MergesSafely(batch, params, m))
  {
    hide Faithful, SeparatorFree, BatchKey, Answered, RowWise, ReturnsWellFormed, AllReady, AllShaped, MergesSafely;
    hide AnsweredAsAlone, AnsweredAsFirst, AccelerationsAgree, Enumerates;
    forall j | 0 <= j < |batch|
      ensures Broadcast(batch[j].inputs, params) == Broadcast(batch[0].inputs, params)
    {
      if j > 0 {
        EqualKeysAgree(sp, spelled[j], spelled[0]);
        AlikeIsEqual(sp, spelled[j].broadcast, spelled[0].broadcast);
      }
    }
    FlushIsTransparentIff(batch, params, predict, answers, m);
  }
}
