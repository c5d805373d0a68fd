/** JSON values as the gate engine compares them.

    Python's `==` would identify `True` with `1`; the engine's own equality keeps booleans
    apart from numbers, compares integers and floats by value, and lets nothing equal a
    non-finite float. */
module JsonValues {

  datatype Option<+T> = None | Some(value: T)

  /** A finite float is the exact real it denotes; NaN and the infinities are `NonFinite`. */
  datatype Json =
    | Null
    | Bool(flag: bool)
    | Int(i: int)
    | Float(x: real)
    | NonFinite
    | Str(text: string)
    | Arr(items: seq<Json>)
    | Obj(members: map<string, Json>)

  predicate IsNumber(v: Json) {
    v.Int? || v.Float? || v.NonFinite?
  }

  /** The real a finite number denotes. */
  function NumberOf(v: Json): real
    requires v.Int? || v.Float?
  {
    if v.Int? then v.i as real else v.x
  }

  /** Branch for branch the engine's equality. */
  predicate JsonEqual(left: Json, right: Json) {
    if left.Bool? || right.Bool? then
      left.Bool? && right.Bool? && left.flag == right.flag
    else if IsNumber(left) || IsNumber(right) then
      && IsNumber(left) && IsNumber(right)
      && !left.NonFinite? && !right.NonFinite?
      && NumberOf(left) == NumberOf(right)
    else if left.Obj? || right.Obj? then
      && left.Obj? && right.Obj?
      && left.members.Keys == right.members.Keys
      && forall k | k in left.members :: JsonEqual(left.members[k], right.members[k])
    else if left.Arr? || right.Arr? then
      && left.Arr? && right.Arr?
      && |left.items| == |right.items|
      && forall i | 0 <= i < |left.items| :: JsonEqual(left.items[i], right.items[i])
    else
      left == right
  }

  /** No NaN or infinity anywhere in the value. */
  predicate Finite(v: Json) {
    match v
    case NonFinite => false
    case Arr(items) => forall i | 0 <= i < |items| :: Finite(items[i])
    case Obj(members) => forall k | k in members :: Finite(members[k])
    case _ => true
  }

  /** One number domain: every integer becomes the float of the same value. */
  function Normalize(v: Json): Json {
    match v
    case Int(i) => Float(i as real)
    case Arr(items) => Arr(seq(|items|, i requires 0 <= i < |items| => Normalize(items[i])))
    case Obj(members) => Obj(map k | k in members :: Normalize(members[k]))
    case _ => v
  }

  /** The engine's equality is equality of normal forms, except that a value holding a
      non-finite float equals nothing, itself included. */
  lemma {:induction false} EqualIffSameNormalForm(left: Json, right: Json)
    ensures JsonEqual(left, right) <==> Finite(left) && Normalize(left) == Normalize(right)
    decreases left
  {
    if left.Obj? && right.Obj? && left.members.Keys == right.members.Keys {
      forall k | k in left.members
        ensures JsonEqual(left.members[k], right.members[k]) <==>
                Finite(left.members[k]) && Normalize(left.members[k]) == Normalize(right.members[k])
      {
        EqualIffSameNormalForm(left.members[k], right.members[k]);
      }
      ObjectNormalForms(left.members, right.members);
    } else if left.Obj? && right.Obj? {
      assert Normalize(left).members.Keys == left.members.Keys;
      assert Normalize(right).members.Keys == right.members.Keys;
    } else if left.Arr? && right.Arr? && |left.items| == |right.items| {
      forall i | 0 <= i < |left.items|
        ensures JsonEqual(left.items[i], right.items[i]) <==>
                Finite(left.items[i]) && Normalize(left.items[i]) == Normalize(right.items[i])
      {
        EqualIffSameNormalForm(left.items[i], right.items[i]);
      }
      ArrayNormalForms(left.items, right.items);
    } else if left.Arr? && right.Arr? {
      assert |Normalize(left).items| == |left.items|;
      assert |Normalize(right).items| == |right.items|;
    }
  }

  lemma ObjectNormalForms(a: map<string, Json>, b: map<string, Json>)
    requires a.Keys == b.Keys
    ensures Normalize(Obj(a)) == Normalize(Obj(b)) <==>
            forall k | k in a :: Normalize(a[k]) == Normalize(b[k])
  {
    var na, nb := Normalize(Obj(a)).members, Normalize(Obj(b)).members;
    assert na.Keys == a.Keys && nb.Keys == b.Keys;
    assert forall k | k in a :: na[k] == Normalize(a[k]) && nb[k] == Normalize(b[k]);
    if forall k | k in a :: Normalize(a[k]) == Normalize(b[k]) {
      assert na == nb;
    }
  }

  lemma ArrayNormalForms(a: seq<Json>, b: seq<Json>)
    requires |a| == |b|
    ensures Normalize(Arr(a)) == Normalize(Arr(b)) <==>
            forall i | 0 <= i < |a| :: Normalize(a[i]) == Normalize(b[i])
  {
    var na, nb := Normalize(Arr(a)).items, Normalize(Arr(b)).items;
    assert |na| == |a| && |nb| == |b|;
    assert forall i | 0 <= i < |a| :: na[i] == Normalize(a[i]) && nb[i] == Normalize(b[i]);
    if forall i | 0 <= i < |a| :: Normalize(a[i]) == Normalize(b[i]) {
      assert na == nb;
    }
  }

  /** On finite values the engine's equality is an equivalence relation. */
  lemma EqualIsEquivalence(a: Json, b: Json, c: Json)
    ensures JsonEqual(a, a) <==> Finite(a)
    ensures JsonEqual(a, b) ==> JsonEqual(b, a)
    ensures JsonEqual(a, b) && JsonEqual(b, c) ==> JsonEqual(a, c)
  {
    EqualIffSameNormalForm(a, a);
    EqualIffSameNormalForm(a, b);
    EqualIffSameNormalForm(b, a);
    EqualIffSameNormalForm(b, c);
    EqualIffSameNormalForm(a, c);
    if JsonEqual(a, b) {
      FiniteFollowsNormalForm(a, b);
    }
  }

  lemma {:induction false} FiniteFollowsNormalForm(a: Json, b: Json)
    requires Normalize(a) == Normalize(b)
    ensures Finite(a) <==> Finite(b)
    decreases a
  {
    if a.Obj? {
      assert b.Obj?;
      assert Normalize(a).members.Keys == a.members.Keys;
      assert Normalize(b).members.Keys == b.members.Keys;
      ObjectNormalForms(a.members, b.members);
      forall k | k in a.members
        ensures Finite(a.members[k]) <==> Finite(b.members[k])
      {
        FiniteFollowsNormalForm(a.members[k], b.members[k]);
      }
    } else if a.Arr? {
      assert b.Arr?;
      assert |Normalize(a).items| == |a.items|;
      assert |Normalize(b).items| == |b.items|;
      ArrayNormalForms(a.items, b.items);
      forall i | 0 <= i < |a.items|
        ensures Finite(a.items[i]) <==> Finite(b.items[i])
      {
        FiniteFollowsNormalForm(a.items[i], b.items[i]);
      }
    }
  }

  /** A comparison a loaded policy can hold; the bound of an ordered one is finite. */
  datatype Comparison =
    | Eq(expected: Json)
    | In(allowed: seq<Json>)
    | Lte(bound: real)
    | Gte(bound: real)
    | Truthy

  predicate Compare(actual: Json, test: Comparison) {
    match test
    case Eq(expected) => JsonEqual(actual, expected)
    case In(allowed) => exists i | 0 <= i < |allowed| :: JsonEqual(actual, allowed[i])
    case Lte(bound) => (actual.Int? || actual.Float?) && NumberOf(actual) <= bound
    case Gte(bound) => (actual.Int? || actual.Float?) && NumberOf(actual) >= bound
    case Truthy => actual == Bool(true)
  }

  /** The relation each operator of a policy asks for, said of the values alone. */
  predicate Stands(v: Json, test: Comparison) {
    match test
    case Eq(expected) => Finite(v) && Normalize(v) == Normalize(expected)
    case In(allowed) => Finite(v) && exists i | 0 <= i < |allowed| :: Normalize(v) == Normalize(allowed[i])
    case Lte(bound) => (v.Int? && v.i as real <= bound) || (v.Float? && v.x <= bound)
    case Gte(bound) => (v.Int? && bound <= v.i as real) || (v.Float? && bound <= v.x)
    case Truthy => v.Bool? && v.flag
  }

  /** The engine's comparison decides exactly that relation. */
  lemma CompareMeans(v: Json, test: Comparison)
    ensures Compare(v, test) <==> Stands(v, test)
  {
    match test
    case Eq(expected) => EqualIffSameNormalForm(v, expected);
    case In(allowed) =>
      forall i | 0 <= i < |allowed|
        ensures JsonEqual(v, allowed[i]) <==> Finite(v) && Normalize(v) == Normalize(allowed[i])
      {
        EqualIffSameNormalForm(v, allowed[i]);
      }
    case _ =>
  }

  /** Every comparison, membership and enum tests included, sees only the normal form. */
  lemma CompareSeesNormalForm(a: Json, b: Json, test: Comparison)
    requires Normalize(a) == Normalize(b)
    ensures Compare(a, test) <==> Compare(b, test)
  {
    FiniteFollowsNormalForm(a, b);
    match test
    case Eq(expected) =>
      EqualIffSameNormalForm(a, expected);
      EqualIffSameNormalForm(b, expected);
    case In(allowed) =>
      forall i | 0 <= i < |allowed|
        ensures JsonEqual(a, allowed[i]) <==> JsonEqual(b, allowed[i])
      {
        EqualIffSameNormalForm(a, allowed[i]);
        EqualIffSameNormalForm(b, allowed[i]);
      }
    case _ =>
  }

  /** `"a.b.c".split(".")`. */
  function SplitDots(path: string): (parts: seq<string>)
    ensures |parts| > 0
  {
    if path == "" then [""]
    else
      var rest := SplitDots(path[1..]);
      if path[0] == '.' then [""] + rest else [[path[0]] + rest[0]] + rest[1..]
  }

  function FollowParts(root: Json, parts: seq<string>): Option<Json> {
    if parts == [] then Some(root)
    else if root.Obj? && parts[0] in root.members then FollowParts(root.members[parts[0]], parts[1..])
    else None
  }

  /** `None` stands for the policy error raised on an unavailable path. */
  function ResolvePath(root: Json, path: string): Option<Json> {
    FollowParts(root, SplitDots(path))
  }

  function JoinDots(parts: seq<string>): string
    requires |parts| > 0
  {
    if |parts| == 1 then parts[0] else parts[0] + "." + JoinDots(parts[1..])
  }

  /** The parts are what stands between the dots: joined again they give the path, and none
      holds a dot. */
  lemma {:induction false} SplitDotsIsExact(path: string)
    ensures JoinDots(SplitDots(path)) == path
    ensures forall i | 0 <= i < |SplitDots(path)| :: '.' !in SplitDots(path)[i]
  {
    if path != "" {
      var rest := SplitDots(path[1..]);
      SplitDotsIsExact(path[1..]);
      if path[0] == '.' {
        assert SplitDots(path)[1..] == rest;
        assert path == "" + "." + path[1..];
      } else {
        assert SplitDots(path)[1..] == rest[1..];
        assert path == [path[0]] + path[1..];
      }
    }
  }

  /** The part before the first dot. */
  lemma {:induction false} FirstPart(path: string, k: nat)
    requires k <= |path| && '.' !in path[..k] && (k < |path| ==> path[k] == '.')
    ensures SplitDots(path)[0] == path[..k]
  {
    if k > 0 {
      assert path[0] == path[..k][0];
      assert path[1..][..k - 1] == path[..k][1..];
      FirstPart(path[1..], k - 1);
      assert path[..k] == [path[0]] + path[1..][..k - 1];
    } else {
      assert path[..0] == "";
    }
  }

  /** `chain` leads from `root` member by member along `parts`. */
  predicate Chain(root: Json, parts: seq<string>, chain: seq<Json>) {
    && |chain| == |parts| + 1 && chain[0] == root
    && forall i | 0 <= i < |parts| ::
         chain[i].Obj? && parts[i] in chain[i].members && chain[i + 1] == chain[i].members[parts[i]]
  }

  /** A path is available exactly when objects lead to its end member by member, and its value
      is what stands there. */
  lemma {:induction false} PathLeadsTo(root: Json, parts: seq<string>, v: Json)
    ensures FollowParts(root, parts) == Some(v) <==> exists chain :: Chain(root, parts, chain) && chain[|parts|] == v
  {
    if parts == [] {
      assert Chain(root, parts, [root]);
    } else {
      if root.Obj? && parts[0] in root.members {
        var next := root.members[parts[0]];
        PathLeadsTo(next, parts[1..], v);
        if FollowParts(root, parts) == Some(v) {
          var chain :| Chain(next, parts[1..], chain) && chain[|parts| - 1] == v;
          assert Chain(root, parts, [root] + chain);
        }
      }
      if chain: seq<Json> :| Chain(root, parts, chain) && chain[|parts|] == v {
        assert parts[0] in chain[0].members;
        assert Chain(chain[1], parts[1..], chain[1..]);
      }
    }
  }

  /** Substitutes every "$path" string of a tool input by the request's value there. */
  function ResolveInput(value: Json, request: Json): Option<Json> {
    match value
    case Str(text) =>
      if text != "" && text[0] == '$' then ResolvePath(request, text[1..]) else Some(value)
    case Obj(members) =>
      if forall k | k in members :: ResolveInput(members[k], request).Some? then
        Some(Obj(map k | k in members :: ResolveInput(members[k], request).value))
      else None
    case Arr(items) =>
      if forall i | 0 <= i < |items| :: ResolveInput(items[i], request).Some? then
        Some(Arr(seq(|items|, i requires 0 <= i < |items| && ResolveInput(items[i], request).Some? =>
                       ResolveInput(items[i], request).value)))
      else None
    case _ => Some(value)
  }

  /** The texts inside a value, keys aside. */
  predicate Mentions(value: Json, text: string) {
    match value
    case Str(t) => t == text
    case Obj(members) => exists k | k in members :: Mentions(members[k], text)
    case Arr(items) => exists i | 0 <= i < |items| :: Mentions(items[i], text)
    case _ => false
  }

  predicate Available(request: Json, text: string) {
    text != "" && text[0] == '$' ==> ResolvePath(request, text[1..]).Some?
  }

  /** An input resolves exactly when every path it mentions is available in the request. */
  lemma {:induction false} InputResolvesIff(value: Json, request: Json)
    ensures ResolveInput(value, request).Some? <==> forall text | Mentions(value, text) :: Available(request, text)
    decreases value
  {
    match value
    case Str(text) => assert Mentions(value, text);
    case Obj(members) =>
      forall k | k in members
        ensures ResolveInput(members[k], request).Some? <==>
                forall text | Mentions(members[k], text) :: Available(request, text)
      {
        InputResolvesIff(members[k], request);
      }
      if text: string, k: string :| k in members && Mentions(members[k], text) && !Available(request, text) {
        assert Mentions(value, text);
      }
    case Arr(items) =>
      forall i | 0 <= i < |items|
        ensures ResolveInput(items[i], request).Some? <==>
                forall text | Mentions(items[i], text) :: Available(request, text)
      {
        InputResolvesIff(items[i], request);
      }
      if text: string, i: nat :| i < |items| && Mentions(items[i], text) && !Available(request, text) {
        assert Mentions(value, text);
      }
    case _ =>
  }
}
