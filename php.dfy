/** PHP values, PHP arrays and the reflection objects the injector's support
    code passes around. Everything here is a value: PHP objects are known by
    what they describe plus an identity serial. */
module Php {

  datatype Option<+T> = None | Some(value: T)

  datatype Result<+T, +E> = Ok(value: T) | Err(error: E)

  /** A PHP array key. */
  datatype Key = IntKey(i: int) | StrKey(s: string)

  /** The PHP values that reach the caches, the injection chain and the
      exception helpers. Arrays are ordered maps, kept as their entries. */
  datatype Value =
    | Null
    | Bool(b: bool)
    | Int(i: int)
    | Str(s: string)
    | Array(entries: seq<(Key, Value)>)
    | Obj(obj: Object)

  /** PHP's `false`, the "not found" answer of every cache. */
  const PhpFalse: Value := Bool(false)

  // ---------------------------------------------------------------------
  // Declarations of the running program, as reflection reports them.

  /** The declared type of a parameter: none, a built-in type, or a class-like name. */
  datatype TypeDecl = Untyped | Builtin(name: string) | Named(name: string)

  datatype ParamDecl = ParamDecl(name: string, typ: TypeDecl)

  /** A method as declared; `declaringClass` is the class that declares it. */
  datatype MethodDecl = MethodDecl(declaringClass: string, name: string, params: seq<ParamDecl>)

  /** A class with its canonical name and its methods, keyed by lower-cased name. */
  datatype ClassDecl = ClassDecl(name: string, methods: map<string, MethodDecl>)

  datatype FunctionDecl = FunctionDecl(name: string, params: seq<ParamDecl>)

  /** What a ReflectionFunctionAbstract stands for: a method of a class, or a
      function (a closure reports the name `{closure}`). */
  datatype Callee = MethodOf(cls: string, name: string) | FunctionNamed(name: string)

  /** A PHP object. Reflection objects carry what they reflect; `id` tells
      two objects apart that describe the same thing. */
  datatype Object =
    | Instance(cls: string, id: nat)
    | ClassRefl(decl: ClassDecl, id: nat)
    | CalleeRefl(callee: Callee, params: seq<ParamDecl>, id: nat)
    | ParamRefl(param: ParamDecl, id: nat)

  /** `get_class($o)`. */
  function ClassNameOf(o: Object): string
  {
    match o
    case Instance(cls, _) => cls
    case ClassRefl(_, _) => "ReflectionClass"
    case CalleeRefl(MethodOf(_, _), _, _) => "ReflectionMethod"
    case CalleeRefl(FunctionNamed(_), _, _) => "ReflectionFunction"
    case ParamRefl(_, _) => "ReflectionParameter"
  }

  // ---------------------------------------------------------------------
  // Loose and strict comparison with false.

  /** PHP's conversion to bool, which is also `$v != false` and `! $v`. */
  predicate Truthy(v: Value)
  {
    match v
    case Null => false
    case Bool(b) => b
    case Int(i) => i != 0
    case Str(s) => s != "" && s != "0"
    case Array(es) => es != []
    case Obj(_) => true
  }

  /** The loosely-false values are exactly null, false, 0, '', '0' and the empty array. */
  lemma FalsyValues(v: Value)
    ensures !Truthy(v) <==> v == Null || v == PhpFalse || v == Int(0) || v == Str("") || v == Str("0") || v == Array([])
  {
  }

  // ---------------------------------------------------------------------
  // strtolower on ASCII letters.

  function LowerChar(c: char): char
  {
    if 'A' <= c <= 'Z' then (c as int + 32) as char else c
  }

  /** `strtolower($s)`: maps the ASCII capitals and leaves every other character alone. */
  function Lower(s: string): (r: string)
    ensures |r| == |s|
  {
    seq(|s|, i requires 0 <= i < |s| => LowerChar(s[i]))
  }

  /** Lower-casing never introduces or removes a '.', which the cache keys use as separator. */
  lemma LowerKeepsDots(s: string)
    ensures '.' in Lower(s) <==> '.' in s
  {
    if '.' in Lower(s) {
      var i :| 0 <= i < |s| && Lower(s)[i] == '.';
      assert s[i] == '.';
    }
    if '.' in s {
      var i :| 0 <= i < |s| && s[i] == '.';
      assert Lower(s)[i] == '.';
    }
  }

  // ---------------------------------------------------------------------
  // PHP arrays as ordered maps: a sequence of entries in insertion order.

  /** `$m[$k]` when set, else None; the first entry with that key. */
  function Get<K(==), V>(m: seq<(K, V)>, k: K): Option<V>
  {
    if m == [] then None else if m[0].0 == k then Some(m[0].1) else Get(m[1..], k)
  }

  /** A PHP array never holds a key twice. */
  predicate DistinctKeys<K(==), V>(m: seq<(K, V)>)
  {
    forall i, j :: 0 <= i < j < |m| ==> m[i].0 != m[j].0
  }

  /** `$m[$k] = $v`: an existing key keeps its position and takes the new
      value, a new key is appended. */
  function Put<K(==), V>(m: seq<(K, V)>, k: K, v: V): (r: seq<(K, V)>)
    ensures |r| == if Get(m, k).None? then |m| + 1 else |m|
    ensures forall i :: 0 <= i < |m| ==> r[i].0 == m[i].0
  {
    if m == [] then [(k, v)]
    else if m[0].0 == k then [(k, v)] + m[1..]
    else [m[0]] + Put(m[1..], k, v)
  }

  /** `$m[$k]` after `$m[$k] = $v` is `$v`; every other key reads as before. */
  lemma {:induction false} GetPut<K, V>(m: seq<(K, V)>, k: K, v: V, k': K)
    ensures Get(Put(m, k, v), k') == if k' == k then Some(v) else Get(m, k')
  {
    if m != [] && m[0].0 != k {
      GetPut(m[1..], k, v, k');
    }
  }

  lemma {:induction false} GetAbsent<K, V>(m: seq<(K, V)>, k: K)
    requires forall i :: 0 <= i < |m| ==> m[i].0 != k
    ensures Get(m, k) == None
  {
    if m != [] {
      GetAbsent(m[1..], k);
    }
  }

  lemma {:induction false} GetPresent<K, V>(m: seq<(K, V)>, i: nat)
    requires DistinctKeys(m) && i < |m|
    ensures Get(m, m[i].0) == Some(m[i].1)
  {
    if i > 0 {
      GetPresent(m[1..], i - 1);
    }
  }

  lemma {:induction false} GetSomeIsEntry<K, V>(m: seq<(K, V)>, k: K)
    requires Get(m, k).Some?
    ensures exists i :: 0 <= i < |m| && m[i] == (k, Get(m, k).value)
  {
    if m[0].0 != k {
      GetSomeIsEntry(m[1..], k);
      var i :| 0 <= i < |m[1..]| && m[1..][i] == (k, Get(m, k).value);
      assert m[i + 1] == (k, Get(m, k).value);
    }
  }

  /** Assigning a key that is not yet present appends it. */
  lemma {:induction false} PutFresh<K, V>(m: seq<(K, V)>, k: K, v: V)
    requires Get(m, k) == None
    ensures Put(m, k, v) == m + [(k, v)]
  {
    if m != [] {
      PutFresh(m[1..], k, v);
    }
  }

  lemma {:induction false} PutDistinct<K, V>(m: seq<(K, V)>, k: K, v: V)
    requires DistinctKeys(m)
    ensures DistinctKeys(Put(m, k, v))
  {
    if m != [] && m[0].0 != k {
      PutDistinct(m[1..], k, v);
      var r := Put(m, k, v);
      assert r == [m[0]] + Put(m[1..], k, v);
      forall j | 1 <= j < |r|
        ensures r[j].0 != m[0].0
      {
        GetPut(m[1..], k, v, r[j].0);
        GetPresent(Put(m[1..], k, v), j - 1);
        if r[j].0 != k {
          GetSomeIsEntry(m[1..], r[j].0);
        }
      }
    }
  }

  /** `array_flip($m)`: every entry `k => v` in order performs `$r[$v] = $k`. */
  function Flip<K, V(==)>(m: seq<(K, V)>): (r: seq<(V, K)>)
    ensures DistinctKeys(r)
  {
    if m == [] then []
    else
      PutDistinct(Flip(m[..|m| - 1]), m[|m| - 1].1, m[|m| - 1].0);
      Put(Flip(m[..|m| - 1]), m[|m| - 1].1, m[|m| - 1].0)
  }

  /** `array_merge($a, $b)` for arrays whose keys are all strings: each entry
      of `$b`, in order, is assigned into `$a`. */
  function Merge<K(==), V>(a: seq<(K, V)>, b: seq<(K, V)>): seq<(K, V)>
    decreases |b|
  {
    if b == [] then a else Merge(Put(a, b[0].0, b[0].1), b[1..])
  }

  /** In a merge the second array wins: a key it holds reads its value, any
      other key reads the first array's. */
  lemma {:induction false} MergePrecedence<K, V>(a: seq<(K, V)>, b: seq<(K, V)>, k: K)
    requires DistinctKeys(b)
    ensures Get(Merge(a, b), k) == if Get(b, k).Some? then Get(b, k) else Get(a, k)
    decreases |b|
  {
    if b != [] {
      MergePrecedence(Put(a, b[0].0, b[0].1), b[1..], k);
      GetPut(a, b[0].0, b[0].1, k);
      if k == b[0].0 {
        GetAbsent(b[1..], k);
      }
    }
  }

  /** A merge keeps the first array's keys where they were, in front. */
  lemma {:induction false} MergeKeepsOrder<K, V>(a: seq<(K, V)>, b: seq<(K, V)>)
    ensures |Merge(a, b)| >= |a|
    ensures forall i :: 0 <= i < |a| ==> Merge(a, b)[i].0 == a[i].0
    decreases |b|
  {
    if b != [] {
      MergeKeepsOrder(Put(a, b[0].0, b[0].1), b[1..]);
    }
  }

  lemma {:induction false} MergeDistinct<K, V>(a: seq<(K, V)>, b: seq<(K, V)>)
    requires DistinctKeys(a)
    ensures DistinctKeys(Merge(a, b))
    decreases |b|
  {
    if b != [] {
      PutDistinct(a, b[0].0, b[0].1);
      MergeDistinct(Put(a, b[0].0, b[0].1), b[1..]);
    }
  }
}
