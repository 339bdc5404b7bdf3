/** The caching reflector: every reflection lookup is memoised in a
    reflection cache under a key made of a per-kind prefix and the
    lower-cased name. The spec functions below give the answer and the new
    cache state of each lookup; the class CachingReflector performs them
    step by step against a ReflectionCacheArray. */
module CachingReflection {
  import opened Php
  import opened ReflectionCache

  const ClassesPrefix: string := "bn.injector.refls.classes."
  const CtorsPrefix: string := "bn.injector.refls.ctors."
  const CtorParamsPrefix: string := "bn.injector.refls.ctor-params."
  const FuncsPrefix: string := "bn.injector.refls.funcs."
  const MethodsPrefix: string := "bn.injector.refls.methods."

  /** PHP turns a null array key into the empty string, so a store under a
      null key lands on "". */
  const NullKey: string := ""

  /** The program that reflection looks into: its classes and functions,
      each keyed by its lower-cased name. */
  datatype Runtime = Runtime(classes: map<string, ClassDecl>, functions: map<string, FunctionDecl>)

  /** PHP class names never contain a '.'. */
  predicate WellFormed(rt: Runtime)
  {
    forall k :: k in rt.classes ==> '.' !in rt.classes[k].name
  }

  /** Why a lookup threw: a reflection constructor found nothing, or a value
      of the wrong kind reached an operation that needs an object. */
  datatype ReflError =
    | NoSuchClass(name: string)
    | NoSuchFunction(name: string)
    | NoSuchMethod(cls: string, methodName: string)
    | WrongKind(v: Value)

  /** The reflector's state: the cache contents and the number of reflection
      objects made so far (the next object's identity). */
  datatype RState = RState(cache: map<string, Value>, made: nat)

  datatype Answer = Answer(result: Result<Value, ReflError>, state: RState)

  // ---------------------------------------------------------------------
  // Cache keys.

  function ClassKey(name: string): string { ClassesPrefix + Lower(name) }

  function CtorKey(name: string): string { CtorsPrefix + Lower(name) }

  function CtorParamsKey(name: string): string { CtorParamsPrefix + Lower(name) }

  function FunctionKey(name: string): string { FuncsPrefix + Lower(name) }

  function MethodKey(className: string, methodName: string): string
  {
    MethodsPrefix + Lower(className) + "." + Lower(methodName)
  }

  /** The key of a parameter's type hint; None for a closure, which has no
      name to key it by. A method's key sits under the class prefix. */
  function ParamKey(fn: Callee, paramName: string): Option<string>
  {
    match fn
    case MethodOf(cls, m) =>
      Some(ClassesPrefix + Lower(cls) + "." + Lower(m) + ".param-" + Lower(paramName))
    case FunctionNamed(f) =>
      if Lower(f) != "{closure}" then Some(FuncsPrefix + "." + Lower(f) + ".param-" + Lower(paramName))
      else None
  }

  lemma PrefixAt(p: string, s: string, i: nat)
    requires i < |p|
    ensures (p + s)[i] == p[i]
  {
  }

  lemma PrefixCancel(p: string, s: string, t: string)
    requires p + s == p + t
    ensures s == t
  {
    assert s == (p + s)[|p|..];
    assert t == (p + t)[|p|..];
  }

  /** Names that differ only in case share one entry of each kind. */
  lemma KeysIgnoreCase(a: string, b: string, m: string, m': string)
    requires Lower(a) == Lower(b) && Lower(m) == Lower(m')
    ensures ClassKey(a) == ClassKey(b) && CtorKey(a) == CtorKey(b)
    ensures CtorParamsKey(a) == CtorParamsKey(b) && FunctionKey(a) == FunctionKey(b)
    ensures MethodKey(a, m) == MethodKey(b, m')
  {
  }

  /** ... and names that differ otherwise get different entries. */
  lemma NameKeysInjective(a: string, b: string)
    ensures ClassKey(a) == ClassKey(b) <==> Lower(a) == Lower(b)
    ensures CtorKey(a) == CtorKey(b) <==> Lower(a) == Lower(b)
    ensures CtorParamsKey(a) == CtorParamsKey(b) <==> Lower(a) == Lower(b)
    ensures FunctionKey(a) == FunctionKey(b) <==> Lower(a) == Lower(b)
  {
    if ClassKey(a) == ClassKey(b) { PrefixCancel(ClassesPrefix, Lower(a), Lower(b)); }
    if CtorKey(a) == CtorKey(b) { PrefixCancel(CtorsPrefix, Lower(a), Lower(b)); }
    if CtorParamsKey(a) == CtorParamsKey(b) { PrefixCancel(CtorParamsPrefix, Lower(a), Lower(b)); }
    if FunctionKey(a) == FunctionKey(b) { PrefixCancel(FuncsPrefix, Lower(a), Lower(b)); }
  }

  /** The per-kind prefixes keep the kinds apart: a class, a constructor, a
      parameter list, a function and a method never share an entry. */
  lemma KindsDisjoint(a: string, b: string, m: string)
    ensures ClassKey(a) != CtorKey(b) && ClassKey(a) != CtorParamsKey(b)
    ensures ClassKey(a) != FunctionKey(b) && ClassKey(a) != MethodKey(b, m)
    ensures CtorKey(a) != CtorParamsKey(b) && CtorKey(a) != FunctionKey(b)
    ensures CtorKey(a) != MethodKey(b, m) && CtorParamsKey(a) != FunctionKey(b)
    ensures CtorParamsKey(a) != MethodKey(b, m) && FunctionKey(a) != MethodKey(b, m)
  {
    var mk := Lower(b) + "." + Lower(m);
    assert MethodKey(b, m) == MethodsPrefix + mk;
    // "bn.injector.refls." is shared; the character after it tells
    // classes, ctor*, funcs and methods apart; index 22 splits the two ctor kinds.
    PrefixAt(ClassesPrefix, Lower(a), 19);
    PrefixAt(CtorsPrefix, Lower(a), 19);
    PrefixAt(CtorsPrefix, Lower(a), 22);
    PrefixAt(CtorsPrefix, Lower(b), 19);
    PrefixAt(CtorsPrefix, Lower(b), 22);
    PrefixAt(CtorParamsPrefix, Lower(a), 19);
    PrefixAt(CtorParamsPrefix, Lower(a), 22);
    PrefixAt(CtorParamsPrefix, Lower(b), 19);
    PrefixAt(CtorParamsPrefix, Lower(b), 22);
    PrefixAt(FuncsPrefix, Lower(a), 18);
    PrefixAt(FuncsPrefix, Lower(b), 18);
    PrefixAt(ClassesPrefix, Lower(a), 18);
    PrefixAt(CtorsPrefix, Lower(a), 18);
    PrefixAt(CtorsPrefix, Lower(b), 18);
    PrefixAt(CtorParamsPrefix, Lower(a), 18);
    PrefixAt(CtorParamsPrefix, Lower(b), 18);
    PrefixAt(MethodsPrefix, mk, 18);
  }

  // ---------------------------------------------------------------------
  // The reflection primitives. Each `new Reflection...` that succeeds makes
  // one object whose identity is the reflector's counter.

  function FindClass(rt: Runtime, name: string): Option<ClassDecl>
  {
    if Lower(name) in rt.classes then Some(rt.classes[Lower(name)]) else None
  }

  /** `new ReflectionClass($name)`. */
  function ReflectClass(rt: Runtime, name: string, id: nat): Result<Value, ReflError>
  {
    match FindClass(rt, name)
    case Some(decl) => Ok(Obj(ClassRefl(decl, id)))
    case None => Err(NoSuchClass(name))
  }

  /** `new ReflectionFunction($name)`. */
  function ReflectFunction(rt: Runtime, name: string, id: nat): Result<Value, ReflError>
  {
    if Lower(name) in rt.functions then
      var f := rt.functions[Lower(name)];
      Ok(Obj(CalleeRefl(FunctionNamed(f.name), f.params, id)))
    else Err(NoSuchFunction(name))
  }

  function MethodObject(md: MethodDecl, id: nat): Value
  {
    Obj(CalleeRefl(MethodOf(md.declaringClass, md.name), md.params, id))
  }

  /** `new ReflectionMethod($className, $methodName)`. */
  function ReflectMethod(rt: Runtime, className: string, methodName: string, id: nat): Result<Value, ReflError>
  {
    match FindClass(rt, className)
    case Some(decl) =>
      if Lower(methodName) in decl.methods then Ok(MethodObject(decl.methods[Lower(methodName)], id))
      else Err(NoSuchMethod(className, methodName))
    case None => Err(NoSuchMethod(className, methodName))
  }

  /** `$reflectionClass->getConstructor()`: null, or a new ReflectionMethod. */
  function ConstructorOf(decl: ClassDecl, id: nat): Value
  {
    if "__construct" in decl.methods then MethodObject(decl.methods["__construct"], id) else Null
  }

  /** `$method->getParameters()`: a list of new ReflectionParameter objects
      numbered from `id`. */
  function ParametersOf(params: seq<ParamDecl>, id: nat): Value
  {
    Array(seq(|params|, i requires 0 <= i < |params| => (IntKey(i), Obj(ParamRefl(params[i], id + i)))))
  }

  // ---------------------------------------------------------------------
  // The lookups.

  /** getClass: a loosely-true cached value is a hit. */
  function ClassLookup(rt: Runtime, st: RState, name: string): Answer
  {
    var key := ClassKey(name);
    var cached := Lookup(st.cache, key);
    if Truthy(cached) then Answer(Ok(cached), st)
    else
      match ReflectClass(rt, name, st.made)
      case Err(e) => Answer(Err(e), st)
      case Ok(rc) => Answer(Ok(rc), RState(st.cache[key := rc], st.made + 1))
  }

  /** getConstructor: anything but `false` is a hit, so a cached null
      constructor is reused. */
  function ConstructorLookup(rt: Runtime, st: RState, name: string): Answer
  {
    var key := CtorKey(name);
    var cached := Lookup(st.cache, key);
    if cached != PhpFalse then Answer(Ok(cached), st)
    else
      var c := ClassLookup(rt, st, name);
      if c.result.Err? then c
      else
        match c.result.value
        case Obj(ClassRefl(decl, _)) =>
          var ctor := ConstructorOf(decl, c.state.made);
          Answer(Ok(ctor), RState(c.state.cache[key := ctor], if ctor == Null then c.state.made else c.state.made + 1))
        case other => Answer(Err(WrongKind(other)), c.state)
  }

  /** getConstructorParams: a hit returns at once; otherwise the parameters
      of a loosely-true constructor, or null, are stored and returned. */
  function ConstructorParamsLookup(rt: Runtime, st: RState, name: string): Answer
  {
    var key := CtorParamsKey(name);
    var cached := Lookup(st.cache, key);
    if cached != PhpFalse then Answer(Ok(cached), st)
    else
      var c := ConstructorLookup(rt, st, name);
      if c.result.Err? then c
      else if !Truthy(c.result.value) then Answer(Ok(Null), RState(c.state.cache[key := Null], c.state.made))
      else
        match c.result.value
        case Obj(CalleeRefl(_, params, _)) =>
          var ps := ParametersOf(params, c.state.made);
          Answer(Ok(ps), RState(c.state.cache[key := ps], c.state.made + |params|))
        case other => Answer(Err(WrongKind(other)), c.state)
  }

  /** getParamTypeHint: the class-like type of a parameter as a class name,
      or null. A closure's hint is never read from the cache. On a miss with
      a class-like type the class reflection is stored under its class key
      first, then the hint under the parameter key (for a closure: under the
      null key). */
  function TypeHintLookup(rt: Runtime, st: RState, fn: Object, param: Object): Answer
    requires fn.CalleeRefl? && param.ParamRefl?
  {
    var key := ParamKey(fn.callee, param.param.name);
    var cached := if key.None? then PhpFalse else Lookup(st.cache, key.value);
    if cached != PhpFalse then Answer(Ok(cached), st)
    else
      var storeKey := if key.Some? then key.value else NullKey;
      match param.param.typ
      case Named(n) =>
        (match FindClass(rt, n)
         case None => Answer(Err(NoSuchClass(n)), st)
         case Some(decl) =>
           var hint := Str(decl.name);
           var cache' := st.cache[ClassKey(decl.name) := Obj(ClassRefl(decl, st.made))];
           Answer(Ok(hint), RState(cache'[storeKey := hint], st.made + 1)))
      case _ => Answer(Ok(Null), RState(st.cache[storeKey := Null], st.made))
  }

  /** getFunction: anything but `false` is a hit. */
  function FunctionLookup(rt: Runtime, st: RState, name: string): Answer
  {
    var key := FunctionKey(name);
    var cached := Lookup(st.cache, key);
    if cached != PhpFalse then Answer(Ok(cached), st)
    else
      match ReflectFunction(rt, name, st.made)
      case Err(e) => Answer(Err(e), st)
      case Ok(f) => Answer(Ok(f), RState(st.cache[key := f], st.made + 1))
  }

  /** The class name getMethod works with: a string as it is, an object's class. */
  function TargetClassName(target: Value): Option<string>
  {
    match target
    case Str(s) => Some(s)
    case Obj(o) => Some(ClassNameOf(o))
    case _ => None
  }

  /** getMethod: a loosely-true cached value is a hit. */
  function MethodLookup(rt: Runtime, st: RState, target: Value, methodName: string): Answer
  {
    match TargetClassName(target)
    case None => Answer(Err(WrongKind(target)), st)
    case Some(className) =>
      var key := MethodKey(className, methodName);
      var cached := Lookup(st.cache, key);
      if Truthy(cached) then Answer(Ok(cached), st)
      else
        match ReflectMethod(rt, className, methodName, st.made)
        case Err(e) => Answer(Err(e), st)
        case Ok(m) => Answer(Ok(m), RState(st.cache[key := m], st.made + 1))
  }

  // ---------------------------------------------------------------------
  // Properties of the lookups.

  /** A second getClass for a name equal up to case returns the same object
      and reflects nothing. */
  lemma ClassLookupRepeats(rt: Runtime, st: RState, a: string, b: string)
    requires Lower(a) == Lower(b) && ClassLookup(rt, st, a).result.Ok?
    ensures var first := ClassLookup(rt, st, a);
      ClassLookup(rt, first.state, b) == first
  {
    KeysIgnoreCase(a, b, "", "");
  }

  /** A second getFunction returns the same object and reflects nothing. */
  lemma FunctionLookupRepeats(rt: Runtime, st: RState, a: string, b: string)
    requires Lower(a) == Lower(b) && FunctionLookup(rt, st, a).result.Ok?
    ensures var first := FunctionLookup(rt, st, a);
      FunctionLookup(rt, first.state, b) == first
  {
    KeysIgnoreCase(a, b, "", "");
  }

  /** A second getMethod returns the same object and reflects nothing. */
  lemma MethodLookupRepeats(rt: Runtime, st: RState, target: Value, m: string, m': string)
    requires Lower(m) == Lower(m') && MethodLookup(rt, st, target, m).result.Ok?
    ensures var first := MethodLookup(rt, st, target, m);
      MethodLookup(rt, first.state, target, m') == first
  {
    var className := TargetClassName(target).value;
    KeysIgnoreCase(className, className, m, m');
  }

  /** getMethod on an instance is getMethod on its class name: both use one entry. */
  lemma MethodLookupOnInstance(rt: Runtime, st: RState, o: Object, m: string)
    ensures MethodLookup(rt, st, Obj(o), m) == MethodLookup(rt, st, Str(ClassNameOf(o)), m)
  {
  }

  /** A second getConstructor returns the first answer, a null constructor
      included, without reflecting again. */
  lemma ConstructorLookupRepeats(rt: Runtime, st: RState, a: string, b: string)
    requires Lower(a) == Lower(b) && ConstructorLookup(rt, st, a).result.Ok?
    ensures var first := ConstructorLookup(rt, st, a);
      ConstructorLookup(rt, first.state, b) == first
  {
    KeysIgnoreCase(a, b, "", "");
    var first := ConstructorLookup(rt, st, a);
    if Lookup(st.cache, CtorKey(a)) == PhpFalse {
      var c := ClassLookup(rt, st, a);
      assert first.state.cache[CtorKey(a)] == first.result.value;
    }
  }

  /** A class without a constructor: on an empty cache getConstructor answers
      null and caches it, and asking again is a hit that reflects nothing. */
  lemma NullConstructorCached(rt: Runtime, made: nat, name: string)
    requires FindClass(rt, name).Some? && "__construct" !in FindClass(rt, name).value.methods
    ensures var first := ConstructorLookup(rt, RState(map[], made), name);
      && first.result == Ok(Null)
      && first.state.cache[CtorKey(name)] == Null
      && first.state.made == made + 1
      && ConstructorLookup(rt, first.state, name) == first
  {
    KindsDisjoint(name, name, "");
    ConstructorLookupRepeats(rt, RState(map[], made), name, name);
  }

  /** A cached parameter list (anything but `false`) returns at once and
      stores nothing. */
  lemma ConstructorParamsHit(rt: Runtime, st: RState, name: string)
    requires Lookup(st.cache, CtorParamsKey(name)) != PhpFalse
    ensures ConstructorParamsLookup(rt, st, name) == Answer(Ok(Lookup(st.cache, CtorParamsKey(name))), st)
  {
  }

  /** On a miss with no (loosely-true) constructor, getConstructorParams
      returns null and stores null. */
  lemma ConstructorParamsNull(rt: Runtime, st: RState, name: string)
    requires Lookup(st.cache, CtorParamsKey(name)) == PhpFalse
    requires ConstructorLookup(rt, st, name).result.Ok?
    requires !Truthy(ConstructorLookup(rt, st, name).result.value)
    ensures var c := ConstructorLookup(rt, st, name);
      ConstructorParamsLookup(rt, st, name) == Answer(Ok(Null), RState(c.state.cache[CtorParamsKey(name) := Null], c.state.made))
  {
  }

  /** A second getConstructorParams returns the first answer without storing. */
  lemma ConstructorParamsRepeats(rt: Runtime, st: RState, a: string, b: string)
    requires Lower(a) == Lower(b) && ConstructorParamsLookup(rt, st, a).result.Ok?
    ensures var first := ConstructorParamsLookup(rt, st, a);
      ConstructorParamsLookup(rt, first.state, b) == first
  {
    KeysIgnoreCase(a, b, "", "");
  }

  predicate IsClosure(fn: Object)
  {
    fn.CalleeRefl? && fn.callee.FunctionNamed? && Lower(fn.callee.name) == "{closure}"
  }

  /** A closure's hint is recomputed on every call whatever the cache holds,
      and the result is stored under the null key. */
  lemma ClosureHintUncached(rt: Runtime, st: RState, st': RState, fn: Object, param: Object)
    requires IsClosure(fn) && param.ParamRefl? && st.made == st'.made
    ensures TypeHintLookup(rt, st, fn, param).result == TypeHintLookup(rt, st', fn, param).result
    ensures var a := TypeHintLookup(rt, st, fn, param);
      a.result.Ok? ==> NullKey in a.state.cache && a.state.cache[NullKey] == a.result.value
  {
  }

  /** The cache key of a hint miss that stores into `storeKey`. */
  function HintStoreKey(fn: Object, param: Object): string
    requires fn.CalleeRefl? && param.ParamRefl?
  {
    var key := ParamKey(fn.callee, param.param.name);
    if key.Some? then key.value else NullKey
  }

  predicate HintMiss(st: RState, fn: Object, param: Object)
    requires fn.CalleeRefl? && param.ParamRefl?
  {
    var key := ParamKey(fn.callee, param.param.name);
    key.None? || Lookup(st.cache, key.value) == PhpFalse
  }

  /** On a miss the hint is null exactly when the parameter has no
      class-like type; with one it is the class's canonical name. */
  lemma HintNullIffUntyped(rt: Runtime, st: RState, fn: Object, param: Object)
    requires fn.CalleeRefl? && param.ParamRefl? && HintMiss(st, fn, param)
    ensures var a := TypeHintLookup(rt, st, fn, param);
      a.result.Ok? ==> (a.result.value == Null <==> !param.param.typ.Named?)
    ensures var a := TypeHintLookup(rt, st, fn, param);
      param.param.typ.Named? ==>
        a.result == (match FindClass(rt, param.param.typ.name)
                     case Some(decl) => Ok(Str(decl.name))
                     case None => Err(NoSuchClass(param.param.typ.name)))
  {
  }

  /** A parameter's hint key is never a class key when class names hold no '.'. */
  lemma HintKeyIsNotClassKey(fn: Object, param: Object, h: string)
    requires fn.CalleeRefl? && param.ParamRefl? && '.' !in h
    ensures HintStoreKey(fn, param) != ClassKey(h)
  {
    LowerKeepsDots(h);
    match fn.callee
    case MethodOf(cls, m) =>
      var rest := Lower(cls) + "." + Lower(m) + ".param-" + Lower(param.param.name);
      assert HintStoreKey(fn, param) == ClassesPrefix + rest;
      assert rest[|Lower(cls)|] == '.';
      if ClassesPrefix + rest == ClassKey(h) {
        PrefixCancel(ClassesPrefix, rest, Lower(h));
        assert false;
      }
    case FunctionNamed(f) =>
      if Lower(f) != "{closure}" {
        var rest := "." + Lower(f) + ".param-" + Lower(param.param.name);
        assert HintStoreKey(fn, param) == FuncsPrefix + rest;
        PrefixAt(FuncsPrefix, rest, 18);
        PrefixAt(ClassesPrefix, Lower(h), 18);
      }
  }

  /** A hint miss with a class-like type leaves the class reflection cached
      under the class key, so a later getClass of the hint is a hit. */
  lemma HintPrepopulatesClass(rt: Runtime, st: RState, fn: Object, param: Object)
    requires WellFormed(rt)
    requires fn.CalleeRefl? && param.ParamRefl? && HintMiss(st, fn, param)
    requires param.param.typ.Named? && TypeHintLookup(rt, st, fn, param).result.Ok?
    ensures var a := TypeHintLookup(rt, st, fn, param);
      && a.result.value.Str?
      && ClassLookup(rt, a.state, a.result.value.s)
         == Answer(Ok(Obj(ClassRefl(FindClass(rt, param.param.typ.name).value, st.made))), a.state)
  {
    var decl := FindClass(rt, param.param.typ.name).value;
    assert '.' !in decl.name;
    HintKeyIsNotClassKey(fn, param, decl.name);
  }

  // ---------------------------------------------------------------------

  /** The caching reflector over an in-memory cache. */
  class CachingReflector {
    const rt: Runtime
    const cache: ReflectionCacheArray
    var made: nat

    function State(): RState
      reads this, cache
    {
      RState(cache.cache, made)
    }

    /** Uses the given cache, or a fresh empty one. */
    constructor (rt: Runtime, cache: ReflectionCacheArray?)
      ensures this.rt == rt && made == 0
      ensures cache != null ==> this.cache == cache
      ensures cache == null ==> fresh(this.cache) && this.cache.cache == map[]
    {
      this.rt := rt;
      if cache != null {
        this.cache := cache;
      } else {
        this.cache := new ReflectionCacheArray();
      }
      made := 0;
    }

    method GetClass(name: string) returns (r: Result<Value, ReflError>)
      modifies this`made, cache
      ensures Answer(r, State()) == ClassLookup(rt, old(State()), name)
    {
      var cacheKey := ClassKey(name);
      var reflectionClass := cache.Fetch(cacheKey);
      if !Truthy(reflectionClass) {
        var created := ReflectClass(rt, name, made);
        if created.Err? {
          return Err(created.error);
        }
        reflectionClass := created.value;
        made := made + 1;
        cache.Store(cacheKey, reflectionClass);
      }
      r := Ok(reflectionClass);
    }

    method GetConstructor(name: string) returns (r: Result<Value, ReflError>)
      modifies this`made, cache
      ensures Answer(r, State()) == ConstructorLookup(rt, old(State()), name)
    {
      var cacheKey := CtorKey(name);
      var reflectedConstructor := cache.Fetch(cacheKey);
      if reflectedConstructor == PhpFalse {
        var reflectionClass := GetClass(name);
        if reflectionClass.Err? {
          return reflectionClass;
        }
        if !(reflectionClass.value.Obj? && reflectionClass.value.obj.ClassRefl?) {
          return Err(WrongKind(reflectionClass.value));
        }
        reflectedConstructor := ConstructorOf(reflectionClass.value.obj.decl, made);
        if reflectedConstructor != Null {
          made := made + 1;
        }
        cache.Store(cacheKey, reflectedConstructor);
      }
      r := Ok(reflectedConstructor);
    }

    method GetConstructorParams(name: string) returns (r: Result<Value, ReflError>)
      modifies this`made, cache
      ensures Answer(r, State()) == ConstructorParamsLookup(rt, old(State()), name)
    {
      var cacheKey := CtorParamsKey(name);
      var reflectedConstructorParams := cache.Fetch(cacheKey);
      if reflectedConstructorParams != PhpFalse {
        return Ok(reflectedConstructorParams);
      }
      var reflectedConstructor := GetConstructor(name);
      if reflectedConstructor.Err? {
        return reflectedConstructor;
      }
      if Truthy(reflectedConstructor.value) {
        if !(reflectedConstructor.value.Obj? && reflectedConstructor.value.obj.CalleeRefl?) {
          return Err(WrongKind(reflectedConstructor.value));
        }
        var params := reflectedConstructor.value.obj.params;
        reflectedConstructorParams := ParametersOf(params, made);
        made := made + |params|;
      } else {
        reflectedConstructorParams := Null;
      }
      cache.Store(cacheKey, reflectedConstructorParams);
      r := Ok(reflectedConstructorParams);
    }

    method GetParamTypeHint(fn: Object, param: Object) returns (r: Result<Value, ReflError>)
      requires fn.CalleeRefl? && param.ParamRefl?
      modifies this`made, cache
      ensures Answer(r, State()) == TypeHintLookup(rt, old(State()), fn, param)
    {
      var paramCacheKey := ParamKey(fn.callee, param.param.name);
      var typeHint := PhpFalse;
      if paramCacheKey.Some? {
        typeHint := cache.Fetch(paramCacheKey.value);
      }
      if typeHint != PhpFalse {
        return Ok(typeHint);
      }
      if param.param.typ.Named? {
        var found := FindClass(rt, param.param.typ.name);
        if found.None? {
          return Err(NoSuchClass(param.param.typ.name));
        }
        var reflectionClass := Obj(ClassRefl(found.value, made));
        made := made + 1;
        typeHint := Str(found.value.name);
        cache.Store(ClassKey(found.value.name), reflectionClass);
      } else {
        typeHint := Null;
      }
      cache.Store(if paramCacheKey.Some? then paramCacheKey.value else NullKey, typeHint);
      r := Ok(typeHint);
    }

    method GetFunction(name: string) returns (r: Result<Value, ReflError>)
      modifies this`made, cache
      ensures Answer(r, State()) == FunctionLookup(rt, old(State()), name)
    {
      var cacheKey := FunctionKey(name);
      var reflectedFunc := cache.Fetch(cacheKey);
      if reflectedFunc == PhpFalse {
        var created := ReflectFunction(rt, name, made);
        if created.Err? {
          return Err(created.error);
        }
        reflectedFunc := created.value;
        made := made + 1;
        cache.Store(cacheKey, reflectedFunc);
      }
      r := Ok(reflectedFunc);
    }

    method GetMethod(target: Value, methodName: string) returns (r: Result<Value, ReflError>)
      modifies this`made, cache
      ensures Answer(r, State()) == MethodLookup(rt, old(State()), target, methodName)
    {
      var className: string;
      if target.Str? {
        className := target.s;
      } else if target.Obj? {
        className := ClassNameOf(target.obj);
      } else {
        return Err(WrongKind(target));
      }
      var cacheKey := MethodKey(className, methodName);
      var reflectedMethod := cache.Fetch(cacheKey);
      if !Truthy(reflectedMethod) {
        var created := ReflectMethod(rt, className, methodName, made);
        if created.Err? {
          return Err(created.error);
        }
        reflectedMethod := created.value;
        made := made + 1;
        cache.Store(cacheKey, reflectedMethod);
      }
      r := Ok(reflectedMethod);
    }
  }
}
