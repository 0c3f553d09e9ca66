// Names of catalog models: who owns an alias and how names sort (scripts/model_variants.py).
module ModelNames {

  // ----- Python's order on strings and on pairs of them -----

  predicate Less(a: string, b: string) {
    b != "" && (a == "" || a[0] < b[0] || (a[0] == b[0] && Less(a[1..], b[1..])))
  }

  lemma {:induction false} LessIsStrict(a: string, b: string)
    ensures !Less(a, a)
    ensures !(Less(a, b) && Less(b, a))
    ensures a != b ==> Less(a, b) || Less(b, a)
    decreases |a|
  {
    if a != "" {
      LessIsStrict(a[1..], if b != "" then b[1..] else "");
      if b != "" && a[0] == b[0] && a != b {
        assert a == [a[0]] + a[1..] && b == [b[0]] + b[1..];
      }
    }
  }

  lemma {:induction false} LessIsTransitive(a: string, b: string, c: string)
    requires Less(a, b) && Less(b, c)
    ensures Less(a, c)
    decreases |a|
  {
    if a != "" && a[0] == b[0] == c[0] {
      LessIsTransitive(a[1..], b[1..], c[1..]);
    }
  }

  datatype Key = Key(base: string, rank: string)

  predicate KeyLess(a: Key, b: Key) {
    Less(a.base, b.base) || (a.base == b.base && Less(a.rank, b.rank))
  }

  // ----- Aliases -----

  // Where the last colon stands, or -1: `name.rpartition(":")`.
  function LastColon(name: string): (k: int)
    ensures -1 <= k < |name| && (k >= 0 ==> name[k] == ':')
    ensures forall i :: k < i < |name| ==> name[i] != ':'
  {
    if name == "" then -1
    else if name[|name| - 1] == ':' then |name| - 1
    else LastColon(name[..|name| - 1])
  }

  function Base(name: string): string {
    if LastColon(name) >= 0 then name[..LastColon(name)] else ""
  }

  function Suffix(name: string): string {
    name[LastColon(name) + 1..]
  }

  function Alias(base: string, suffix: string): string {
    base + ":" + suffix
  }

  // An alias says which model it is for and how.
  lemma AliasParts(base: string, suffix: string)
    requires ':' !in suffix
    ensures LastColon(Alias(base, suffix)) == |base|
    ensures Base(Alias(base, suffix)) == base && Suffix(Alias(base, suffix)) == suffix
  {
    var name := Alias(base, suffix);
    assert name[|base|] == ':';
    forall i | |base| < i < |name|
      ensures name[i] != ':'
    {
      assert name[i] == suffix[i - |base| - 1];
    }
  }

  const VARIANT_SUFFIXES: seq<string> := ["thinking", "high", "xhigh", "max"]
  const CLAUDE_SUFFIXES: seq<string> := ["thinking", "xhigh", "max"]

  const OPENAI_EFFORTS: map<string, seq<string>> := map[
    "gpt-5.6-sol" := ["high", "max"],
    "gpt-5.6-terra" := ["high"],
    "gpt-6-astra" := ["high", "max"],
    "gpt-6-sol" := ["high", "max"],
    "gpt-6.1-sol" := ["high", "max"]
  ]

  predicate IsVariantName(name: string) {
    LastColon(name) >= 0 && Suffix(name) in VARIANT_SUFFIXES
  }

  predicate Owned(name: string, prefix: string, suffixes: seq<string>) {
    LastColon(name) >= 0 && prefix <= Base(name) && Suffix(name) in suffixes
  }

  // Whether the generator owns the name for this provider.
  predicate IsGenerated(provider: string, name: string) {
    if provider == "openai" then
      exists base, effort :: base in OPENAI_EFFORTS && effort in OPENAI_EFFORTS[base] && name == Alias(base, effort)
    else if provider == "claude" || provider == "vertexai" then Owned(name, "claude-", CLAUDE_SUFFIXES)
    else provider == "bedrock" && Owned(name, "us.anthropic.claude-", ["thinking"])
  }

  // A name is an alias of one of the suffixes for a base of the prefix.
  ghost predicate IsAliasOf(name: string, prefix: string, suffixes: seq<string>) {
    exists base, suffix :: prefix <= base && suffix in suffixes && name == Alias(base, suffix)
  }

  // The generator owns exactly the aliases it makes: a name that only looks alike is a person's.
  lemma GeneratedNames(provider: string, name: string)
    ensures provider == "claude" || provider == "vertexai" ==>
              (IsGenerated(provider, name) <==> IsAliasOf(name, "claude-", CLAUDE_SUFFIXES))
    ensures provider == "bedrock" ==>
              (IsGenerated(provider, name) <==> IsAliasOf(name, "us.anthropic.claude-", ["thinking"]))
    ensures provider !in {"openai", "claude", "vertexai", "bedrock"} ==> !IsGenerated(provider, name)
  {
    KnownSuffixes();
    OwnedMeansAlias(name, "claude-", CLAUDE_SUFFIXES);
    OwnedMeansAlias(name, "us.anthropic.claude-", ["thinking"]);
  }

  lemma KnownSuffixes()
    ensures forall suffix :: suffix in CLAUDE_SUFFIXES ==> ':' !in suffix
    ensures forall suffix :: suffix in ["thinking"] ==> ':' !in suffix
  {}

  lemma OwnedMeansAlias(name: string, prefix: string, suffixes: seq<string>)
    requires forall suffix :: suffix in suffixes ==> ':' !in suffix
    ensures Owned(name, prefix, suffixes) <==> IsAliasOf(name, prefix, suffixes)
  {
    if Owned(name, prefix, suffixes) {
      assert name == Alias(Base(name), Suffix(name));
    }
    if IsAliasOf(name, prefix, suffixes) {
      var base, suffix :| prefix <= base && suffix in suffixes && name == Alias(base, suffix);
      AliasParts(base, suffix);
    }
  }

  // ----- Sorting -----

  function SortKey(name: string): Key {
    if IsVariantName(name) then Key(Base(name), "1:" + name) else Key(name, "0:" + name)
  }

  predicate Before(a: string, b: string) {
    KeyLess(SortKey(a), SortKey(b))
  }

  // No two names tie, so how a dictionary was built never shows in the sorted catalog.
  lemma BeforeIsStrictTotal(a: string, b: string)
    ensures !Before(a, a)
    ensures !(Before(a, b) && Before(b, a))
    ensures a != b ==> Before(a, b) || Before(b, a)
  {
    KeyLessIsStrict(SortKey(a), SortKey(b));
    RankNames(a);
    RankNames(b);
  }

  lemma RankNames(name: string)
    ensures |SortKey(name).rank| == |name| + 2 && SortKey(name).rank[2..] == name
  {}

  lemma KeyLessIsStrict(a: Key, b: Key)
    ensures !KeyLess(a, a)
    ensures !(KeyLess(a, b) && KeyLess(b, a))
    ensures a != b ==> KeyLess(a, b) || KeyLess(b, a)
  {
    LessIsStrict(a.base, b.base);
    LessIsStrict(a.rank, b.rank);
  }

  lemma KeyLessIsTransitive(a: Key, b: Key, c: Key)
    requires KeyLess(a, b) && KeyLess(b, c)
    ensures KeyLess(a, c)
  {
    LessIsStrict(a.base, b.base);
    LessIsStrict(b.base, c.base);
    if Less(a.base, b.base) && Less(b.base, c.base) { LessIsTransitive(a.base, b.base, c.base); }
    if a.base == b.base == c.base { LessIsTransitive(a.rank, b.rank, c.rank); }
  }

  lemma BeforeIsTransitive(a: string, b: string, c: string)
    requires Before(a, b) && Before(b, c)
    ensures Before(a, c)
  {
    KeyLessIsTransitive(SortKey(a), SortKey(b), SortKey(c));
  }

  // A variant sorts after the model it is for, with nothing but variants of that model between them.
  lemma VariantsFollowTheirBase(base: string, suffix: string, other: string)
    requires suffix in VARIANT_SUFFIXES && !IsVariantName(base)
    ensures Before(base, Alias(base, suffix))
    ensures Before(base, other) && Before(other, Alias(base, suffix)) ==> IsVariantName(other) && Base(other) == base
  {
    var variant := Alias(base, suffix);
    AliasParts(base, suffix);
    assert SortKey(variant) == Key(base, "1:" + variant) && SortKey(base) == Key(base, "0:" + base);
    assert ("0:" + base)[0] < ("1:" + variant)[0];
    if Before(base, other) && Before(other, variant) {
      LessIsStrict(base, SortKey(other).base);
      if !IsVariantName(other) {
        assert SortKey(other).base == other == base;
        BeforeIsStrictTotal(base, other);
      }
    }
  }

  // ----- Sorted lists, for any strict total order -----

  ghost predicate StrictTotal<T(!new)>(before: (T, T) -> bool) {
    && (forall a, b :: before(a, b) ==> !before(b, a))
    && (forall a, b :: a == b || before(a, b) || before(b, a))
    && (forall a, b, c :: before(a, b) && before(b, c) ==> before(a, c))
  }

  ghost predicate Ordered<T>(list: seq<T>, before: (T, T) -> bool) {
    forall i, j :: 0 <= i < j < |list| ==> before(list[i], list[j])
  }

  lemma OrderedTail<T(!new)>(list: seq<T>, before: (T, T) -> bool, x: T)
    requires StrictTotal(before) && Ordered(list, before) && list != []
    ensures x in list[1..] <==> x in list && x != list[0]
    ensures x in list ==> x == list[0] || before(list[0], x)
    ensures Ordered(list[1..], before)
  {}

  // A set of elements has one ordered list.
  lemma {:induction false} OrderedIsUnique<T(!new)>(a: seq<T>, b: seq<T>, before: (T, T) -> bool)
    requires StrictTotal(before) && Ordered(a, before) && Ordered(b, before)
    requires forall x :: x in a <==> x in b
    ensures a == b
    decreases |a|
  {
    assert a != [] ==> a[0] in b;
    assert b != [] ==> b[0] in a;
    if a != [] {
      OrderedTail(a, before, b[0]);
      OrderedTail(b, before, a[0]);
      assert a[0] == b[0];
      forall x
        ensures x in a[1..] <==> x in b[1..]
      {
        OrderedTail(a, before, x);
        OrderedTail(b, before, x);
      }
      OrderedIsUnique(a[1..], b[1..], before);
      assert a == [a[0]] + a[1..] && b == [b[0]] + b[1..];
    }
  }

  lemma InsertedHolds<T>(list: seq<T>, x: T, k: nat)
    requires k <= |list|
    ensures forall y :: y in list[..k] + [x] + list[k..] <==> y in list || y == x
  {}

  method Insert<T(!new)>(list: seq<T>, x: T, before: (T, T) -> bool) returns (longer: seq<T>)
    requires StrictTotal(before) && Ordered(list, before) && x !in list
    ensures Ordered(longer, before)
    ensures forall y :: y in longer <==> y in list || y == x
  {
    var k := 0;
    while k < |list| && before(list[k], x)
      invariant 0 <= k <= |list|
      invariant forall i :: 0 <= i < k ==> before(list[i], x)
    {
      k := k + 1;
    }
    assert forall i :: k <= i < |list| ==> before(x, list[i]);
    longer := list[..k] + [x] + list[k..];
    InsertedHolds(list, x, k);
  }

  // ----- Sorted names -----

  ghost predicate Ascending(names: seq<string>) {
    Ordered(names, Before)
  }

  lemma NamesAreOrdered()
    ensures StrictTotal(Before)
  {
    forall a: string, b: string
      ensures (Before(a, b) ==> !Before(b, a)) && (a == b || Before(a, b) || Before(b, a))
    {
      BeforeIsStrictTotal(a, b);
    }
    forall a: string, b: string, c: string | Before(a, b) && Before(b, c)
      ensures Before(a, c)
    {
      BeforeIsTransitive(a, b, c);
    }
  }

  // The sorted list of a set of names is unique.
  lemma AscendingIsUnique(a: seq<string>, b: seq<string>)
    requires Ascending(a) && Ascending(b)
    requires forall n :: n in a <==> n in b
    ensures a == b
  {
    NamesAreOrdered();
    OrderedIsUnique(a, b, Before);
  }

  // `sorted(names, key=provider_sort_key)`.
  method Sorted(names: set<string>) returns (list: seq<string>)
    ensures Ascending(list)
    ensures forall n :: n in list <==> n in names
  {
    NamesAreOrdered();
    list := [];
    var rest := names;
    while rest != {}
      invariant Ascending(list) && rest <= names
      invariant forall n :: n in list <==> n in names - rest
      decreases |rest|
    {
      var name :| name in rest;
      list := Insert(list, name, Before);
      rest := rest - {name};
    }
  }
}
