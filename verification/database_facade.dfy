/**
 * The database facade of `anon/Modules/Database.php` (`Anon_Database`). On
 * construction it instantiates every declared class named
 * `Anon_Database_<X>Repository` or `Anon_Database_<X>Service` and files the
 * object under three keys; unknown method calls are forwarded to the
 * repository or service the method name points at, or else to the first
 * object that has the method.
 *
 * An object is identified by the name of its class: each class is
 * instantiated at most once, so two keys hold the same object exactly when
 * they hold the same class name. Which methods a class has
 * (`method_exists`, case-insensitive in PHP) is the parameter `hasMethod`.
 */
module DatabaseFacade {
  import opened Common

  const ClassPrefix: string := "Anon_Database_"
  const RepositorySuffix: string := "Repository"
  const ServiceSuffix: string := "Service"

  /** `[A-Za-z0-9_]`. */
  predicate IsWordChar(c: char) {
    'A' <= c <= 'Z' || 'a' <= c <= 'z' || '0' <= c <= '9' || c == '_'
  }

  predicate AllWordChars(s: string) {
    forall i :: 0 <= i < |s| ==> IsWordChar(s[i])
  }

  /**
   * `/^Anon_Database_([A-Za-z0-9_]+)(Repository|Service)$/`: the subject and
   * the kind of a matching class name.
   */
  function ParseClass(c: string): (r: Option<(string, string)>)
    ensures r.Some? ==> c == ClassPrefix + r.value.0 + r.value.1
    ensures r.Some? ==> (r.value.1 == RepositorySuffix || r.value.1 == ServiceSuffix)
    ensures r.Some? ==> |r.value.0| > 0 && AllWordChars(r.value.0)
  {
    var n := |ClassPrefix|;
    if |c| < n || c[..n] != ClassPrefix then None
    else
      var rest := c[n..];
      assert c == ClassPrefix + rest;
      if |rest| > |RepositorySuffix| && rest[|rest| - |RepositorySuffix|..] == RepositorySuffix
         && AllWordChars(rest[..|rest| - |RepositorySuffix|]) then
        assert rest == rest[..|rest| - |RepositorySuffix|] + RepositorySuffix;
        Some((rest[..|rest| - |RepositorySuffix|], RepositorySuffix))
      else if |rest| > |ServiceSuffix| && rest[|rest| - |ServiceSuffix|..] == ServiceSuffix
              && AllWordChars(rest[..|rest| - |ServiceSuffix|]) then
        assert rest == rest[..|rest| - |ServiceSuffix|] + ServiceSuffix;
        Some((rest[..|rest| - |ServiceSuffix|], ServiceSuffix))
      else None
  }

  /** The short key `<X><Kind>` of a matching class. */
  function ShortKey(m: (string, string)): string {
    m.0 + m.1
  }

  /**
   * One pass of the discovery loop: a matching class whose full name is not
   * yet a key is instantiated and filed under its full name, its short key
   * and the `lcfirst` of the short key, in that order.
   */
  function BootstrapStep(instances: seq<(string, string)>, cls: string): (r: seq<(string, string)>)
    ensures ParseClass(cls).Some? && !HasKey(instances, cls) ==>
              Lookup(r, cls) == Some(cls) &&
              Lookup(r, ShortKey(ParseClass(cls).value)) == Some(cls) &&
              Lookup(r, Lcfirst(ShortKey(ParseClass(cls).value))) == Some(cls)
    ensures ParseClass(cls).Some? && !HasKey(instances, cls) ==>
              forall k :: (k != cls && k != ShortKey(ParseClass(cls).value) &&
                           k != Lcfirst(ShortKey(ParseClass(cls).value))) ==> Lookup(r, k) == Lookup(instances, k)
    ensures ParseClass(cls).None? || HasKey(instances, cls) ==> r == instances
    ensures HasKey(r, cls) <==> HasKey(instances, cls) || ParseClass(cls).Some?
  {
    match ParseClass(cls)
    case None => instances
    case Some(m) =>
      if HasKey(instances, cls) then instances
      else Put(Put(Put(instances, cls, cls), ShortKey(m), cls), Lcfirst(ShortKey(m)), cls)
  }

  /** The instance table after the discovery loop over `classes`. */
  function Bootstrapped(instances: seq<(string, string)>, classes: seq<string>): seq<(string, string)>
    decreases |classes|
  {
    if |classes| == 0 then instances
    else BootstrapStep(Bootstrapped(instances, classes[..|classes| - 1]), classes[|classes| - 1])
  }

  /** Keys are never removed by the discovery loop. */
  lemma {:induction false} BootstrapKeepsKeys(instances: seq<(string, string)>, classes: seq<string>, k: string)
    requires HasKey(instances, k)
    ensures HasKey(Bootstrapped(instances, classes), k)
    decreases |classes|
  {
    if |classes| > 0 {
      BootstrapKeepsKeys(instances, classes[..|classes| - 1], k);
      var before := Bootstrapped(instances, classes[..|classes| - 1]);
      var cls := classes[|classes| - 1];
      if ParseClass(cls).Some? && !HasKey(before, cls) {
        var m := ParseClass(cls).value;
        PutKeepsKeys(before, cls, cls, k);
        PutKeepsKeys(Put(before, cls, cls), ShortKey(m), cls, k);
        PutKeepsKeys(Put(Put(before, cls, cls), ShortKey(m), cls), Lcfirst(ShortKey(m)), cls, k);
      }
    }
  }

  lemma PutKeepsKeys(e: seq<(string, string)>, k: string, v: string, k': string)
    requires HasKey(e, k')
    ensures HasKey(Put(e, k, v), k')
  {
    if k' != k {
      assert Lookup(Put(e, k, v), k') == Lookup(e, k');
    }
  }

  /** Every matching class ends up with its full name as a key. */
  lemma {:induction false} BootstrapFilesEveryClass(instances: seq<(string, string)>, classes: seq<string>, i: nat)
    requires i < |classes| && ParseClass(classes[i]).Some?
    ensures HasKey(Bootstrapped(instances, classes), classes[i])
    decreases |classes|
  {
    var init := classes[..|classes| - 1];
    if i < |classes| - 1 {
      BootstrapFilesEveryClass(instances, init, i);
      var before := Bootstrapped(instances, init);
      var cls := classes[|classes| - 1];
      if ParseClass(cls).Some? && !HasKey(before, cls) {
        var m := ParseClass(cls).value;
        var k := classes[i];
        PutKeepsKeys(before, cls, cls, k);
        PutKeepsKeys(Put(before, cls, cls), ShortKey(m), cls, k);
        PutKeepsKeys(Put(Put(before, cls, cls), ShortKey(m), cls), Lcfirst(ShortKey(m)), cls, k);
      }
    }
  }

  /** Once every matching class is filed, the discovery loop instantiates nothing more. */
  lemma {:induction false} BootstrapSettled(instances: seq<(string, string)>, classes: seq<string>)
    requires forall i :: 0 <= i < |classes| && ParseClass(classes[i]).Some? ==> HasKey(instances, classes[i])
    ensures Bootstrapped(instances, classes) == instances
    decreases |classes|
  {
    if |classes| > 0 {
      BootstrapSettled(instances, classes[..|classes| - 1]);
    }
  }

  /** Discovering the same classes twice changes nothing the second time: each class is instantiated once. */
  lemma BootstrapOnce(instances: seq<(string, string)>, classes: seq<string>)
    ensures Bootstrapped(Bootstrapped(instances, classes), classes) == Bootstrapped(instances, classes)
  {
    forall i | 0 <= i < |classes| && ParseClass(classes[i]).Some?
      ensures HasKey(Bootstrapped(instances, classes), classes[i])
    {
      BootstrapFilesEveryClass(instances, classes, i);
    }
    BootstrapSettled(Bootstrapped(instances, classes), classes);
  }

  /** The objects of an instance table, one per key, in key order. */
  function ValuesOf(instances: seq<(string, string)>): (r: seq<string>)
    ensures |r| == |instances| && forall i :: 0 <= i < |instances| ==> r[i] == instances[i].1
  {
    seq(|instances|, i requires 0 <= i < |instances| => instances[i].1)
  }

  /** Each object once, at its first occurrence. */
  function Dedup(s: seq<string>): (r: seq<string>)
    ensures forall x :: x in r <==> x in s
    ensures forall i, j :: 0 <= i < j < |r| ==> r[i] != r[j]
    decreases |s|
  {
    if |s| == 0 then []
    else
      var d := Dedup(s[..|s| - 1]);
      assert forall x :: x in s <==> x in s[..|s| - 1] || x == s[|s| - 1];
      if s[|s| - 1] in d then d else d + [s[|s| - 1]]
  }

  /** Deduplicating a prefix gives a prefix of the result: objects keep their first-seen order. */
  lemma {:induction false} DedupPrefix(s: seq<string>, k: nat)
    requires k <= |s|
    ensures Dedup(s[..k]) <= Dedup(s)
    decreases |s| - k
  {
    if k < |s| {
      DedupPrefix(s, k + 1);
      assert s[..k + 1][..k] == s[..k];
    } else {
      assert s[..k] == s;
    }
  }

  class Database {
    /** `$instances`: key to the class of the object stored there. */
    var instances: seq<(string, string)>

    /** `new Anon_Database()`: an empty table, then `bootstrapInstances` over the declared classes. */
    constructor (declaredClasses: seq<string>)
      ensures instances == Bootstrapped([], declaredClasses)
    {
      instances := [];
      new;
      BootstrapInstances(declaredClasses);
    }

    /** `bootstrapInstances`: the discovery loop. */
    method BootstrapInstances(declaredClasses: seq<string>)
      modifies this
      ensures instances == Bootstrapped(old(instances), declaredClasses)
    {
      var i := 0;
      while i < |declaredClasses|
        invariant 0 <= i <= |declaredClasses|
        invariant instances == Bootstrapped(old(instances), declaredClasses[..i])
      {
        var cls := declaredClasses[i];
        assert declaredClasses[..i + 1][..i] == declaredClasses[..i];
        var m := ParseClass(cls);
        if m.Some? && !HasKey(instances, cls) {
          var short := m.value.0 + m.value.1;
          var camel := Lcfirst(short);
          instances := Put(instances, cls, cls);
          instances := Put(instances, short, cls);
          instances := Put(instances, camel, cls);
        }
        i := i + 1;
      }
      assert declaredClasses[..|declaredClasses|] == declaredClasses;
    }

    /** `__get`: the object under the key, or null. */
    function Get(name: string): (r: Option<string>)
      reads this
      ensures r.Some? <==> HasKey(instances, name)
      ensures r.Some? ==> exists i :: 0 <= i < |instances| && instances[i] == (name, r.value)
    {
      Lookup(instances, name)
    }

    /** `__isset`: whether `__get` would return an object. */
    predicate IsSet(name: string)
      reads this
      ensures IsSet(name) <==> Get(name).Some?
    {
      HasKey(instances, name)
    }

    /** `uniqueInstances`: each stored object once, in first-seen order. */
    method UniqueInstances() returns (uniq: seq<string>)
      ensures uniq == Dedup(ValuesOf(instances))
    {
      var vals := ValuesOf(instances);
      var seen: set<string> := {};
      uniq := [];
      var i := 0;
      while i < |vals|
        invariant 0 <= i <= |vals|
        invariant uniq == Dedup(vals[..i])
        invariant forall x :: x in seen <==> x in uniq
      {
        assert vals[..i + 1][..i] == vals[..i];
        if vals[i] !in seen {
          seen := seen + {vals[i]};
          uniq := uniq + [vals[i]];
        }
        i := i + 1;
      }
      assert vals[..|vals|] == vals;
    }

    /** `__call`: the resolved target when it has the method, else the first object that does. */
    method Call(name: string, hasMethod: (string, string) -> bool) returns (t: CallTarget)
      ensures t == CallTargetOf(instances, name, hasMethod)
    {
      var target := ResolveForwardTarget(instances, name);
      if target.Some? && hasMethod(target.value, name) {
        return Forward(target.value);
      }
      var objects := UniqueInstances();
      var i := 0;
      while i < |objects|
        invariant 0 <= i <= |objects|
        invariant FirstWithMethod(objects, name, hasMethod) == FirstWithMethod(objects[i..], name, hasMethod)
      {
        if hasMethod(objects[i], name) {
          return Forward(objects[i]);
        }
        assert objects[i..][1..] == objects[i + 1..];
        i := i + 1;
      }
      t := BadMethodCall;
    }
  }

  // ---------------------------------------------------------------------------
  // Forwarding
  // ---------------------------------------------------------------------------

  const Verbs: seq<string> := ["get", "is", "add", "update", "delete"]

  /** The longest prefix made of word characters. */
  function WordPrefix(s: string): (r: string)
    ensures r <= s && AllWordChars(r)
    ensures |r| < |s| ==> !IsWordChar(s[|r|])
    decreases |s|
  {
    if |s| > 0 && IsWordChar(s[0]) then [s[0]] + WordPrefix(s[1..]) else ""
  }

  /** The text after the first verb of `Verbs` that begins the method name `name`. */
  function AfterVerb(name: string, verbs: seq<string>): (r: Option<string>)
    ensures r.Some? ==> exists i :: 0 <= i < |verbs| && verbs[i] <= name && r.value == name[|verbs[i]|..]
    ensures r.None? <==> forall i :: 0 <= i < |verbs| ==> !(verbs[i] <= name)
    decreases |verbs|
  {
    if |verbs| == 0 then None
    else if verbs[0] <= name then Some(name[|verbs[0]|..])
    else
      var r := AfterVerb(name, verbs[1..]);
      assert forall i :: 1 <= i < |verbs| ==> verbs[i] == verbs[1..][i - 1];
      r
  }

  /**
   * `/^(get|is|add|update|delete)([A-Z][A-Za-z0-9_]*)/`: the subject is
   * the whole run of word characters after the verb, which must start with
   * an upper-case letter.
   */
  function Subject(name: string): (r: Option<string>)
    ensures r.Some? ==> |r.value| > 0 && 'A' <= r.value[0] <= 'Z' && AllWordChars(r.value)
  {
    match AfterVerb(name, Verbs)
    case None => None
    case Some(rest) => if |rest| > 0 && 'A' <= rest[0] <= 'Z' then Some(WordPrefix(rest)) else None
  }

  /** The keys tried for a subject, in order. */
  function CandidateKeys(subject: string): seq<string> {
    [subject + RepositorySuffix, Lcfirst(subject + RepositorySuffix), ClassPrefix + subject + RepositorySuffix,
     subject + ServiceSuffix, Lcfirst(subject + ServiceSuffix), ClassPrefix + subject + ServiceSuffix]
  }

  /** The object under the first present key. */
  function FirstPresent(instances: seq<(string, string)>, keys: seq<string>): (r: Option<string>)
    ensures r.Some? ==> exists i :: 0 <= i < |keys| && Lookup(instances, keys[i]) == r
    ensures r.None? <==> forall i :: 0 <= i < |keys| ==> !HasKey(instances, keys[i])
    decreases |keys|
  {
    if |keys| == 0 then None
    else if HasKey(instances, keys[0]) then Lookup(instances, keys[0])
    else
      var r := FirstPresent(instances, keys[1..]);
      assert forall i :: 1 <= i < |keys| ==> keys[i] == keys[1..][i - 1];
      r
  }

  /** `resolveForwardTarget`. */
  function ResolveForwardTarget(instances: seq<(string, string)>, name: string): (r: Option<string>)
    ensures Subject(name).None? ==> r.None?
    ensures Subject(name).Some? ==> r == FirstPresent(instances, CandidateKeys(Subject(name).value))
  {
    match Subject(name)
    case None => None
    case Some(subject) => FirstPresent(instances, CandidateKeys(subject))
  }

  /** The subject of `get<Rest>` is all of `Rest` when it is one identifier starting upper-case. */
  lemma SubjectIsWholeRemainder(rest: string)
    requires |rest| > 0 && 'A' <= rest[0] <= 'Z' && AllWordChars(rest)
    ensures Subject("get" + rest) == Some(rest)
  {
    assert "get" <= "get" + rest;
    assert ("get" + rest)[3..] == rest;
    WordPrefixWhole(rest);
  }

  lemma {:induction false} WordPrefixWhole(s: string)
    requires AllWordChars(s)
    ensures WordPrefix(s) == s
    decreases |s|
  {
    if |s| > 0 {
      WordPrefixWhole(s[1..]);
    }
  }

  datatype CallTarget = Forward(obj: string) | BadMethodCall

  function FirstWithMethod(objects: seq<string>, name: string, hasMethod: (string, string) -> bool): (r: Option<string>)
    ensures r.Some? ==> r.value in objects && hasMethod(r.value, name)
    ensures r.None? <==> forall i :: 0 <= i < |objects| ==> !hasMethod(objects[i], name)
    decreases |objects|
  {
    if |objects| == 0 then None
    else if hasMethod(objects[0], name) then Some(objects[0])
    else
      var r := FirstWithMethod(objects[1..], name, hasMethod);
      assert forall i :: 1 <= i < |objects| ==> objects[i] == objects[1..][i - 1];
      r
  }

  /** Where `__call` sends a call. */
  function CallTargetOf(instances: seq<(string, string)>, name: string, hasMethod: (string, string) -> bool): (t: CallTarget)
    ensures t.Forward? ==> hasMethod(t.obj, name)
  {
    var target := ResolveForwardTarget(instances, name);
    if target.Some? && hasMethod(target.value, name) then Forward(target.value)
    else
      match FirstWithMethod(Dedup(ValuesOf(instances)), name, hasMethod)
      case Some(o) => Forward(o)
      case None => BadMethodCall
  }

  /** A call fails exactly when no stored object has the method. */
  lemma BadMethodCallIffNoObjectHasIt(instances: seq<(string, string)>, name: string, hasMethod: (string, string) -> bool)
    ensures CallTargetOf(instances, name, hasMethod) == BadMethodCall <==>
            forall i :: 0 <= i < |instances| ==> !hasMethod(instances[i].1, name)
  {
    var objects := Dedup(ValuesOf(instances));
    var target := ResolveForwardTarget(instances, name);
    if target.Some? {
      var keys := CandidateKeys(Subject(name).value);
      var k :| 0 <= k < |keys| && Lookup(instances, keys[k]) == target;
      LookupIsStored(instances, keys[k]);
    }
    if exists i :: 0 <= i < |instances| && hasMethod(instances[i].1, name) {
      var i :| 0 <= i < |instances| && hasMethod(instances[i].1, name);
      assert instances[i].1 in ValuesOf(instances);
      assert instances[i].1 in objects;
    }
  }

  /** A looked-up object is one of the stored values. */
  lemma LookupIsStored(instances: seq<(string, string)>, k: string)
    requires HasKey(instances, k)
    ensures exists i :: 0 <= i < |instances| && instances[i].1 == Lookup(instances, k).value
  {
    var i := Find(instances, k).value;
    assert instances[i].1 == Lookup(instances, k).value;
  }
}
