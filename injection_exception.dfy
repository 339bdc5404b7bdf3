/** The injection exception: it records the dependency chain that was being
    built (the in-progress map flipped and sorted by ordinal), and builds the
    "invalid invokable" message for a callable it could not use. */
module InjectionExceptions {
  import opened Php
  import opened InjectionChains

  /** Error code and message for an invalid invokable. */
  const InvokableCode: int := 5
  const InvokableMessage: string := "Invalid invokable: callable or provisional string required"

  /** The longest rendering of a callable that goes into a message. */
  const MaxCallableLength: nat := 250

  // ---------------------------------------------------------------------
  // ksort: sort the entries of an array by key.

  predicate SortedByKey(s: seq<(int, string)>)
  {
    forall i, j :: 0 <= i < j < |s| ==> s[i].0 <= s[j].0
  }

  predicate StrictlySortedByKey(s: seq<(int, string)>)
  {
    forall i, j :: 0 <= i < j < |s| ==> s[i].0 < s[j].0
  }

  function Insert(s: seq<(int, string)>, e: (int, string)): seq<(int, string)>
  {
    if s == [] || e.0 <= s[0].0 then [e] + s else [s[0]] + Insert(s[1..], e)
  }

  /** `ksort($s)`. */
  function KSort(s: seq<(int, string)>): seq<(int, string)>
  {
    if s == [] then [] else Insert(KSort(s[1..]), s[0])
  }

  lemma {:induction false} InsertPermutes(s: seq<(int, string)>, e: (int, string))
    ensures multiset(Insert(s, e)) == multiset(s) + multiset{e}
  {
    if s != [] && e.0 > s[0].0 {
      InsertPermutes(s[1..], e);
      assert s == [s[0]] + s[1..];
    }
  }

  lemma {:induction false} InsertSorted(s: seq<(int, string)>, e: (int, string))
    requires SortedByKey(s)
    ensures SortedByKey(Insert(s, e))
  {
    if s != [] && e.0 > s[0].0 {
      InsertSorted(s[1..], e);
      InsertPermutes(s[1..], e);
      var r := Insert(s[1..], e);
      forall x | x in r
        ensures s[0].0 <= x.0
      {
        assert x in multiset(r);
      }
    }
  }

  lemma {:induction false} InsertStrictlySorted(s: seq<(int, string)>, e: (int, string))
    requires StrictlySortedByKey(s)
    requires forall x :: x in s ==> x.0 != e.0
    ensures StrictlySortedByKey(Insert(s, e))
  {
    if s != [] && e.0 > s[0].0 {
      InsertStrictlySorted(s[1..], e);
      InsertPermutes(s[1..], e);
      var r := Insert(s[1..], e);
      forall x | x in r
        ensures s[0].0 < x.0
      {
        assert x in multiset(r);
      }
    }
  }

  /** ksort sorts by key and keeps exactly the entries it was given. */
  lemma {:induction false} KSortSortsAndPermutes(s: seq<(int, string)>)
    ensures SortedByKey(KSort(s))
    ensures multiset(KSort(s)) == multiset(s)
  {
    if s != [] {
      KSortSortsAndPermutes(s[1..]);
      InsertSorted(KSort(s[1..]), s[0]);
      InsertPermutes(KSort(s[1..]), s[0]);
      assert s == [s[0]] + s[1..];
    }
  }

  /** On an array (each key once) ksort orders the keys strictly. */
  lemma {:induction false} KSortStrict(s: seq<(int, string)>)
    requires DistinctKeys(s)
    ensures StrictlySortedByKey(KSort(s))
  {
    if s != [] {
      KSortStrict(s[1..]);
      KSortSortsAndPermutes(s[1..]);
      forall x | x in KSort(s[1..])
        ensures x.0 != s[0].0
      {
        assert x in multiset(s[1..]);
      }
      InsertStrictlySorted(KSort(s[1..]), s[0]);
    }
  }

  /** ksort leaves an array already in key order as it is. */
  lemma {:induction false} KSortOfSorted(s: seq<(int, string)>)
    requires SortedByKey(s)
    ensures KSort(s) == s
  {
    if s != [] {
      KSortOfSorted(s[1..]);
    }
  }

  // ---------------------------------------------------------------------
  // The dependency chain.

  /** What the exception records: `array_flip` of the in-progress map, then `ksort`. */
  function DependencyChainOf(inProgressMakes: InProgress): seq<(int, string)>
  {
    KSort(Flip(inProgressMakes))
  }

  /** For any in-progress map the chain is its flip with the ordinals strictly ascending. */
  lemma DependencyChainOrdered(inProgressMakes: InProgress)
    ensures StrictlySortedByKey(DependencyChainOf(inProgressMakes))
    ensures multiset(DependencyChainOf(inProgressMakes)) == multiset(Flip(inProgressMakes))
  {
    KSortStrict(Flip(inProgressMakes));
    KSortSortsAndPermutes(Flip(inProgressMakes));
  }

  /** For the injector's stack the chain lists the names by ordinal, root first. */
  lemma DependencyChainOfStack(inProgressMakes: InProgress)
    requires IsStack(inProgressMakes)
    ensures DependencyChainOf(inProgressMakes) == Positions(inProgressMakes)
    ensures forall i :: 0 <= i < |inProgressMakes| ==>
      DependencyChainOf(inProgressMakes)[i] == (i, inProgressMakes[i].0)
  {
    FlipStack(inProgressMakes);
    KSortOfSorted(Positions(inProgressMakes));
  }

  // ---------------------------------------------------------------------
  // The invalid-callable message.

  /** The human-readable form of a callable, or null when it has none: a
      string as it is, `[class, method]` as "class::method", `[object,
      method]` as "[object(class), 'method']". A missing element 1 reads as null. */
  function RenderCallable(callable: Value): (r: Value)
    ensures r == Null || r.Str?
  {
    match callable
    case Str(s) => Str(s)
    case Array(es) =>
      (match Get(es, IntKey(0))
       case None => Null
       case Some(first) =>
         var second := match Get(es, IntKey(1)) case Some(v) => v case None => Null;
         if first.Str? && second.Str? then Str(first.s + "::" + second.s)
         else if first.Obj? && second.Str? then Str("[object(" + ClassNameOf(first.obj) + "), '" + second.s + "']")
         else Null)
    case _ => Null
  }

  /** `substr($s, 0, 250)`. */
  function Truncate(s: string): (r: string)
    ensures |r| <= MaxCallableLength && r <= s
    ensures |s| <= MaxCallableLength ==> r == s
    ensures |s| > MaxCallableLength ==> r == s[..MaxCallableLength]
  {
    if |s| <= MaxCallableLength then s else s[..MaxCallableLength]
  }

  const DetailPrefix: string := InvokableMessage + ". Invalid callable was '"

  /** The message of `fromInvalidCallable`: the invokable message, plus the
      truncated rendering when that rendering is loosely true. */
  function InvalidCallableMessage(callable: Value): string
  {
    var rendered := RenderCallable(callable);
    if Truthy(rendered) then DetailPrefix + Truncate(rendered.s) + "'" else InvokableMessage
  }

  /** Reads back the callable's rendering from a message, if it carries one. */
  function CallableInMessage(message: string): Option<string>
  {
    if |message| > |DetailPrefix| && message[..|DetailPrefix|] == DetailPrefix && message[|message| - 1] == '\''
    then Some(message[|DetailPrefix|..|message| - 1])
    else None
  }

  /** The message carries exactly the truncated rendering, and nothing when
      the rendering is null, '' or '0'. */
  lemma MessageCarriesCallable(callable: Value)
    ensures CallableInMessage(InvalidCallableMessage(callable)) ==
      if Truthy(RenderCallable(callable)) then Some(Truncate(RenderCallable(callable).s)) else None
  {
    var rendered := RenderCallable(callable);
    if Truthy(rendered) {
      var m := DetailPrefix + Truncate(rendered.s) + "'";
      assert m[..|DetailPrefix|] == DetailPrefix;
      assert m[|DetailPrefix|..|m| - 1] == Truncate(rendered.s);
    }
  }

  /** A message never exceeds the invokable message plus 250 characters of callable. */
  lemma MessageBounded(callable: Value)
    ensures |InvalidCallableMessage(callable)| <= |DetailPrefix| + MaxCallableLength + 1
    ensures InvalidCallableMessage(callable)[..|InvokableMessage|] == InvokableMessage
  {
  }

  /** A loosely-true string callable appears verbatim, cut to 250 characters. */
  lemma StringCallableMessage(s: string)
    requires Truthy(Str(s))
    ensures InvalidCallableMessage(Str(s)) == DetailPrefix + Truncate(s) + "'"
  {
  }

  /** A falsy string callable ('' or '0') gives the bare invokable message. */
  lemma FalsyStringMessage(s: string)
    requires s == "" || s == "0"
    ensures InvalidCallableMessage(Str(s)) == InvokableMessage
  {
  }

  /** `[class, method]` renders as "class::method". */
  lemma StaticPairRendering(cls: string, m: string)
    ensures RenderCallable(Array([(IntKey(0), Str(cls)), (IntKey(1), Str(m))])) == Str(cls + "::" + m)
  {
    var es := [(IntKey(0), Str(cls)), (IntKey(1), Str(m))];
    assert es[1..] == [(IntKey(1), Str(m))];
    assert Get(es, IntKey(1)) == Some(Str(m));
  }

  /** `[object, method]` renders as "[object(class), 'method']". */
  lemma InstancePairRendering(o: Object, m: string)
    ensures RenderCallable(Array([(IntKey(0), Obj(o)), (IntKey(1), Str(m))])) ==
      Str("[object(" + ClassNameOf(o) + "), '" + m + "']")
  {
    var es := [(IntKey(0), Obj(o)), (IntKey(1), Str(m))];
    assert es[1..] == [(IntKey(1), Str(m))];
    assert Get(es, IntKey(1)) == Some(Str(m));
  }

  /** Anything that is neither a string nor an array with a usable element 0
      and a string element 1 (a closure, a number, an array of another shape)
      gives the bare invokable message. */
  lemma OtherShapesMessage(callable: Value)
    requires !callable.Str?
    requires callable.Array? ==> (match Get(callable.entries, IntKey(0))
      case None => true
      case Some(first) =>
        !(first.Str? || first.Obj?) || Get(callable.entries, IntKey(1)).None? || !Get(callable.entries, IntKey(1)).value.Str?)
    ensures InvalidCallableMessage(callable) == InvokableMessage
  {
  }

  // ---------------------------------------------------------------------

  class InjectionException {
    var dependencyChain: seq<(int, string)>
    const message: string
    const code: int

    /** Flips the in-progress map into ordinal => name and sorts it by ordinal. */
    constructor (inProgressMakes: InProgress, message: string, code: int)
      ensures dependencyChain == DependencyChainOf(inProgressMakes)
      ensures this.message == message && this.code == code
    {
      this.message := message;
      this.code := code;
      var flipped := Flip(inProgressMakes);
      dependencyChain := KSort(flipped);
    }

    /** The chain recorded when the exception was made. */
    method GetDependencyChain() returns (chain: seq<(int, string)>)
      ensures chain == dependencyChain
    {
      chain := dependencyChain;
    }

    /** An exception with code 5 whose message names the invalid callable. */
    static method FromInvalidCallable(inProgressMakes: InProgress, callable: Value) returns (e: InjectionException)
      ensures fresh(e)
      ensures e.message == InvalidCallableMessage(callable) && e.code == InvokableCode
      ensures e.dependencyChain == DependencyChainOf(inProgressMakes)
    {
      e := new InjectionException(inProgressMakes, InvalidCallableMessage(callable), InvokableCode);
    }
  }
}
