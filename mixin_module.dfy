/**
 * The Mixin platform module's queries: the Mixin library version, the classes
 * listed by the project's Mixin configs, and the writable config a new mixin
 * class belongs in.
 *
 * The configs found in the project (JSON and JSON5 files, in index order) are
 * an input; class lookup by name and version parsing are parameters.
 */
module MixinModule {
  import opened Wrappers

  // ---------------------------------------------------------------------------
  // mixinVersion
  // ---------------------------------------------------------------------------

  /** Fabric's Mixin fork writes its version as "<fabric version>+mixin.<mixin version>". */
  const FabricMixinDelimiter := "+mixin."

  predicate OccursAt(s: string, d: string, k: nat)
  {
    k + |d| <= |s| && s[k..k + |d|] == d
  }

  /** The first position at or after `from` where `d` occurs in `s`. */
  function IndexOfFrom(s: string, d: string, from: nat): (r: Option<nat>)
    requires from <= |s|
    decreases |s| - from
    ensures r.Some? ==> from <= r.value && OccursAt(s, d, r.value) &&
                        forall k :: from <= k < r.value ==> !OccursAt(s, d, k)
    ensures r.None? ==> forall k :: from <= k <= |s| ==> !OccursAt(s, d, k)
  {
    if OccursAt(s, d, from) then Some(from)
    else if from == |s| then None
    else IndexOfFrom(s, d, from + 1)
  }

  /** Kotlin's `substringAfter(d)`: what follows the first `d`, or all of `s` when `d` does not occur. */
  function SubstringAfter(s: string, d: string): (r: string)
    ensures (forall k :: 0 <= k <= |s| ==> !OccursAt(s, d, k)) ==> r == s
    ensures (exists k :: 0 <= k <= |s| && OccursAt(s, d, k)) ==>
      exists i :: 0 <= i <= |s| && OccursAt(s, d, i) && (forall k :: 0 <= k < i ==> !OccursAt(s, d, k)) &&
                  s == s[..i] + d + r
  {
    match IndexOfFrom(s, d, 0)
    case None => s
    case Some(i) =>
      assert s == s[..i] + s[i..i + |d|] + s[i + |d|..];
      s[i + |d|..]
  }

  /** `mixinVersion`: `None` without a Mixin library version, otherwise its Mixin part, parsed. */
  function MixinVersion<V>(libraryVersion: Option<string>, parse: string -> V): (r: Option<V>)
    ensures r.None? <==> libraryVersion.None?
  {
    match libraryVersion
    case None => None
    case Some(version) => Some(parse(SubstringAfter(version, FabricMixinDelimiter)))
  }

  /** Fabric's form yields the Mixin version after the delimiter. */
  lemma FabricMixinVersion(parse: string -> string)
    ensures MixinVersion(Some("0.10.4+mixin.0.8.4"), parse) == Some(parse("0.8.4"))
  {
    var s := "0.10.4+mixin.0.8.4";
    forall k | 0 <= k < 6 ensures !OccursAt(s, FabricMixinDelimiter, k) {
      assert s[k + 6] != FabricMixinDelimiter[6];
    }
    assert s[6..13] == FabricMixinDelimiter;
    assert IndexOfFrom(s, FabricMixinDelimiter, 0) == Some(6);
    assert s[13..] == "0.8.4";
  }

  /** Any other form is handed to the parser whole. */
  lemma PlainMixinVersion(version: string, parse: string -> string)
    requires forall k :: 0 <= k <= |version| ==> !OccursAt(version, FabricMixinDelimiter, k)
    ensures MixinVersion(Some(version), parse) == Some(parse(version))
  {
  }

  // ---------------------------------------------------------------------------
  // Mixin configs
  // ---------------------------------------------------------------------------

  /** A Mixin config: its qualified class lists (entries may be null), whether it is writable, its package. */
  datatype MixinConfig = MixinConfig(
    qualifiedMixins: seq<Option<string>>,
    qualifiedClient: seq<Option<string>>,
    qualifiedServer: seq<Option<string>>,
    isWritable: bool,
    pkg: Option<string>)

  /**
   * `getMixinConfigs`: the configs of the JSON files, then those of the JSON5
   * files, each file in index order. A file that is not a JSON file with a
   * top-level object is `None` and yields no config.
   */
  function MixinConfigs(jsonFiles: seq<Option<MixinConfig>>, json5Files: seq<Option<MixinConfig>>): (r: seq<MixinConfig>)
    ensures forall c :: c in r <==> Some(c) in jsonFiles || Some(c) in json5Files
    ensures |r| <= |jsonFiles| + |json5Files|
  {
    FilterNotNull(jsonFiles + json5Files)
  }

  /** Dropping nulls commutes with concatenation, so the order of the file types is kept. */
  lemma {:induction false} FilterNotNullAppend<T(!new)>(a: seq<Option<T>>, b: seq<Option<T>>)
    ensures FilterNotNull(a + b) == FilterNotNull(a) + FilterNotNull(b)
  {
    if a != [] {
      assert (a + b)[0] == a[0];
      assert (a + b)[1..] == a[1..] + b;
      FilterNotNullAppend(a[1..], b);
    } else {
      assert a + b == b;
    }
  }

  /** Every JSON config comes before every JSON5 config. */
  lemma JsonConfigsFirst(jsonFiles: seq<Option<MixinConfig>>, json5Files: seq<Option<MixinConfig>>)
    ensures MixinConfigs(jsonFiles, json5Files) == FilterNotNull(jsonFiles) + FilterNotNull(json5Files)
  {
    FilterNotNullAppend(jsonFiles, json5Files);
  }

  function ConfigEntries(c: MixinConfig): seq<Option<string>>
  {
    c.qualifiedMixins + c.qualifiedClient + c.qualifiedServer
  }

  /** The entries of all configs, config by config. */
  function AllEntries(configs: seq<MixinConfig>): (r: seq<Option<string>>)
    ensures forall e :: e in r <==> exists i :: 0 <= i < |configs| && e in ConfigEntries(configs[i])
  {
    if configs == [] then []
    else
      var rest := AllEntries(configs[1..]);
      assert forall i :: 1 <= i < |configs| ==> configs[i] == configs[1..][i - 1];
      assert forall e :: e in ConfigEntries(configs[0]) + rest <==> e in ConfigEntries(configs[0]) || e in rest;
      ConfigEntries(configs[0]) + rest
  }

  /** `filterNotNull()` / `mapNotNull`: the present values, in order. */
  function FilterNotNull<T(!new)>(s: seq<Option<T>>): (r: seq<T>)
    ensures forall x :: x in r <==> Some(x) in s
    ensures |r| <= |s|
  {
    if s == [] then []
    else
      var rest := FilterNotNull(s[1..]);
      match s[0]
      case None => rest
      case Some(x) => [x] + rest
  }

  /** `replace('$', '.')`: a nested class name in source form. */
  function ReplaceDollar(name: string): (r: string)
    ensures |r| == |name|
    ensures forall k :: 0 <= k < |r| ==> r[k] == if name[k] == '$' then '.' else name[k]
  {
    seq(|name|, k requires 0 <= k < |name| => if name[k] == '$' then '.' else name[k])
  }

  function MapReplaceDollar(names: seq<string>): (r: seq<string>)
    ensures |r| == |names|
    ensures forall k :: 0 <= k < |r| ==> r[k] == ReplaceDollar(names[k])
  {
    seq(|names|, k requires 0 <= k < |names| => ReplaceDollar(names[k]))
  }

  /** The position of the first occurrence of `x` in `s`. */
  function FirstIndex(s: seq<string>, x: string): (r: nat)
    requires x in s
    ensures r < |s| && s[r] == x && x !in s[..r]
  {
    if s[0] == x then 0
    else
      var r := FirstIndex(s[1..], x);
      assert s[..r + 1] == [s[0]] + s[1..][..r];
      r + 1
  }

  lemma {:induction false} FirstIndexInPrefix(s: seq<string>, n: nat, x: string)
    requires n <= |s| && x in s[..n]
    ensures FirstIndex(s, x) == FirstIndex(s[..n], x)
  {
    var p := FirstIndex(s[..n], x);
    var q := FirstIndex(s, x);
    assert s[..n][..p] == s[..p];
  }

  /**
   * Kotlin's `distinct()`: each element once, at the place of its first
   * occurrence.
   */
  function Distinct(s: seq<string>): (d: seq<string>)
    ensures forall i, j :: 0 <= i < j < |d| ==> d[i] != d[j]
    ensures forall x :: x in d <==> x in s
    ensures forall i, j :: 0 <= i < j < |d| ==> FirstIndex(s, d[i]) < FirstIndex(s, d[j])
  {
    if s == [] then []
    else
      var n := |s| - 1;
      var init := Distinct(s[..n]);
      assert forall x :: x in s <==> x in s[..n] || x == s[n] by {
        assert s == s[..n] + [s[n]];
      }
      if s[n] in init then
        assert forall i :: 0 <= i < |init| ==> FirstIndex(s, init[i]) == FirstIndex(s[..n], init[i]) by {
          forall i | 0 <= i < |init| { FirstIndexInPrefix(s, n, init[i]); }
        }
        init
      else
        var d := init + [s[n]];
        assert FirstIndex(s, s[n]) == n by {
          assert s[..n] + [s[n]] == s;
        }
        forall i | 0 <= i < |init| ensures FirstIndex(s, init[i]) == FirstIndex(s[..n], init[i]) {
          FirstIndexInPrefix(s, n, init[i]);
        }
        d
  }

  /** The normalised class names `getAllMixinClasses` looks up, before the lookup. */
  function MixinClassNames(configs: seq<MixinConfig>): seq<string>
  {
    Distinct(MapReplaceDollar(FilterNotNull(AllEntries(configs))))
  }

  /** `getAllMixinClasses`: every class found for each normalised name, name by name. */
  function AllMixinClasses<C>(configs: seq<MixinConfig>, findClasses: string -> seq<C>): (r: seq<C>)
    ensures forall c :: c in r ==> exists n :: n in MixinClassNames(configs) && c in findClasses(n)
    ensures forall n, c :: n in MixinClassNames(configs) && c in findClasses(n) ==> c in r
  {
    FlatMap(MixinClassNames(configs), findClasses)
  }

  /** `flatMap`: the results of `f` for each name, name by name. */
  function FlatMap<C>(names: seq<string>, f: string -> seq<C>): (r: seq<C>)
    ensures forall c :: c in r ==> exists n :: n in names && c in f(n)
    ensures forall n, c :: n in names && c in f(n) ==> c in r
  {
    if names == [] then []
    else
      var rest := FlatMap(names[1..], f);
      f(names[0]) + rest
  }

  /**
   * The names looked up are exactly the non-null entries of all configs with
   * '$' replaced by '.', each once, in first-occurrence order, none with a '$'.
   */
  lemma MixinClassNamesSpec(configs: seq<MixinConfig>)
    ensures forall name :: name in MixinClassNames(configs) <==>
      exists i, e :: 0 <= i < |configs| && Some(e) in ConfigEntries(configs[i]) && name == ReplaceDollar(e)
    ensures forall i, j :: 0 <= i < j < |MixinClassNames(configs)| ==> MixinClassNames(configs)[i] != MixinClassNames(configs)[j]
    ensures forall name, k :: name in MixinClassNames(configs) && 0 <= k < |name| ==> name[k] != '$'
  {
    var entries := AllEntries(configs);
    var names := FilterNotNull(entries);
    var mapped := MapReplaceDollar(names);
    forall name ensures name in mapped <==>
      exists i, e :: 0 <= i < |configs| && Some(e) in ConfigEntries(configs[i]) && name == ReplaceDollar(e)
    {
      if name in mapped {
        var k :| 0 <= k < |mapped| && mapped[k] == name;
        assert Some(names[k]) in entries;
      }
      if exists i, e :: 0 <= i < |configs| && Some(e) in ConfigEntries(configs[i]) && name == ReplaceDollar(e) {
        var i, e :| 0 <= i < |configs| && Some(e) in ConfigEntries(configs[i]) && name == ReplaceDollar(e);
        assert e in names;
        var k :| 0 <= k < |names| && names[k] == e;
        assert mapped[k] == name;
      }
    }
    forall name, k | name in MixinClassNames(configs) && 0 <= k < |name| ensures name[k] != '$' {
      var m :| 0 <= m < |mapped| && mapped[m] == name;
    }
  }

  // ---------------------------------------------------------------------------
  // getBestWritableConfigForMixinClass
  // ---------------------------------------------------------------------------

  /** Kotlin's string template `"${pkg}"`: a null package prints as "null". */
  function PkgText(pkg: Option<string>): string
  {
    match pkg
    case None => "null"
    case Some(p) => p
  }

  /** The length of the config's package, 0 when it has none. */
  function PkgLength(c: MixinConfig): nat
  {
    match c.pkg
    case None => 0
    case Some(p) => |p|
  }

  predicate Qualifies(c: MixinConfig, className: string)
  {
    c.isWritable && StartsWith(className, PkgText(c.pkg) + ".")
  }

  function FilterQualifying(configs: seq<MixinConfig>, className: string): (r: seq<MixinConfig>)
    ensures |r| <= |configs|
    ensures forall k :: 0 <= k < |r| ==> Qualifies(r[k], className)
  {
    if configs == [] then []
    else
      var rest := FilterQualifying(configs[1..], className);
      if Qualifies(configs[0], className) then [configs[0]] + rest else rest
  }

  /** The filter keeps exactly the qualifying configs. */
  lemma {:induction false} FilterQualifyingMembers(configs: seq<MixinConfig>, className: string)
    ensures forall c :: c in FilterQualifying(configs, className) <==> c in configs && Qualifies(c, className)
  {
    if configs != [] {
      FilterQualifyingMembers(configs[1..], className);
      assert forall c :: c in configs <==> c == configs[0] || c in configs[1..];
    }
  }

  /** Filtering a non-empty prefix: its head, if it qualifies, then the filtered rest. */
  lemma FilterQualifyingPrefixStep(configs: seq<MixinConfig>, className: string, q: nat)
    requires q < |configs|
    ensures FilterQualifying(configs[..q + 1], className) ==
      (if Qualifies(configs[0], className) then [configs[0]] else []) + FilterQualifying(configs[1..][..q], className)
  {
    var pre := configs[..q + 1];
    assert pre[0] == configs[0];
    assert pre[1..] == configs[1..][..q];
  }

  /** Every element of the filtered list sits in the input after exactly the qualifying elements before it. */
  lemma {:induction false} FilterQualifyingPrefix(configs: seq<MixinConfig>, className: string, i: nat)
    requires i < |FilterQualifying(configs, className)|
    ensures exists p :: 0 <= p < |configs| && configs[p] == FilterQualifying(configs, className)[i] &&
                        FilterQualifying(configs[..p], className) == FilterQualifying(configs, className)[..i]
  {
    var f := FilterQualifying(configs, className);
    var rest := FilterQualifying(configs[1..], className);
    var head := Qualifies(configs[0], className);
    if head && i == 0 {
      assert configs[..0] == [];
    } else {
      var j := if head then i - 1 else i;
      FilterQualifyingPrefix(configs[1..], className, j);
      var q :| 0 <= q < |configs[1..]| && configs[1..][q] == rest[j] &&
               FilterQualifying(configs[1..][..q], className) == rest[..j];
      FilterQualifyingPrefixStep(configs, className, q);
      if head {
        assert f[..i] == [configs[0]] + rest[..j];
      }
      assert configs[q + 1] == f[i];
    }
  }

  /**
   * The index `maxByOrNull` settles on after looking at `s[..k]`, given that
   * `best` holds the first maximum so far.
   */
  function MaxIndexFrom(s: seq<MixinConfig>, best: nat, k: nat): (r: nat)
    requires best < k <= |s|
    requires forall j :: 0 <= j < k ==> PkgLength(s[j]) <= PkgLength(s[best])
    requires forall j :: 0 <= j < best ==> PkgLength(s[j]) < PkgLength(s[best])
    decreases |s| - k
    ensures r < |s|
    ensures forall j :: 0 <= j < |s| ==> PkgLength(s[j]) <= PkgLength(s[r])
    ensures forall j :: 0 <= j < r ==> PkgLength(s[j]) < PkgLength(s[r])
  {
    if k == |s| then best
    else if PkgLength(s[best]) < PkgLength(s[k]) then MaxIndexFrom(s, k, k + 1)
    else MaxIndexFrom(s, best, k + 1)
  }

  /** `maxByOrNull` on the package length: the first config of greatest package length. */
  function MaxByPkgLength(s: seq<MixinConfig>): (r: Option<MixinConfig>)
    ensures r.None? <==> s == []
    ensures r.Some? ==> exists i :: (0 <= i < |s| && s[i] == r.value &&
      (forall j :: 0 <= j < |s| ==> PkgLength(s[j]) <= PkgLength(r.value)) &&
      (forall j :: 0 <= j < i ==> PkgLength(s[j]) < PkgLength(r.value)))
  {
    if s == [] then None else Some(s[MaxIndexFrom(s, 0, 1)])
  }

  /** `getBestWritableConfigForMixinClass` over the project's configs. */
  function BestWritableConfig(configs: seq<MixinConfig>, className: string): Option<MixinConfig>
  {
    MaxByPkgLength(FilterQualifying(configs, className))
  }

  /** There is a best config exactly when some config qualifies. */
  lemma BestWritableConfigExists(configs: seq<MixinConfig>, className: string)
    ensures BestWritableConfig(configs, className).None? <==>
      forall i :: 0 <= i < |configs| ==> !Qualifies(configs[i], className)
  {
    var f := FilterQualifying(configs, className);
    FilterQualifyingMembers(configs, className);
    if f == [] {
      forall i | 0 <= i < |configs| ensures !Qualifies(configs[i], className) {
        assert configs[i] in configs;
      }
    } else {
      assert f[0] in f;
    }
  }

  /** The best config qualifies, and no qualifying config has a longer package. */
  lemma BestWritableConfigLongest(configs: seq<MixinConfig>, className: string)
    requires BestWritableConfig(configs, className).Some?
    ensures Qualifies(BestWritableConfig(configs, className).value, className)
    ensures forall j :: 0 <= j < |configs| && Qualifies(configs[j], className) ==>
      PkgLength(configs[j]) <= PkgLength(BestWritableConfig(configs, className).value)
  {
    var f := FilterQualifying(configs, className);
    var best := BestWritableConfig(configs, className).value;
    FilterQualifyingMembers(configs, className);
    var b :| 0 <= b < |f| && f[b] == best && forall j :: 0 <= j < |f| ==> PkgLength(f[j]) <= PkgLength(best);
    forall j | 0 <= j < |configs| && Qualifies(configs[j], className)
      ensures PkgLength(configs[j]) <= PkgLength(best)
    {
      assert configs[j] in f;
    }
  }

  /** Every qualifying config before the best one has a strictly shorter package. */
  lemma BestWritableConfigFirst(configs: seq<MixinConfig>, className: string)
    requires BestWritableConfig(configs, className).Some?
    ensures exists p :: (0 <= p < |configs| && configs[p] == BestWritableConfig(configs, className).value &&
      forall j :: 0 <= j < p && Qualifies(configs[j], className) ==>
        PkgLength(configs[j]) < PkgLength(BestWritableConfig(configs, className).value))
  {
    var f := FilterQualifying(configs, className);
    var best := BestWritableConfig(configs, className).value;
    var b :| 0 <= b < |f| && f[b] == best && forall j :: 0 <= j < b ==> PkgLength(f[j]) < PkgLength(best);
    FilterQualifyingPrefix(configs, className, b);
    var p :| 0 <= p < |configs| && configs[p] == f[b] && FilterQualifying(configs[..p], className) == f[..b];
    FilterQualifyingMembers(configs[..p], className);
    forall j | 0 <= j < p && Qualifies(configs[j], className)
      ensures PkgLength(configs[j]) < PkgLength(best)
    {
      assert configs[..p][j] == configs[j];
      assert configs[j] in f[..b];
    }
  }

  /**
   * The chosen config is writable and its package, followed by '.', prefixes
   * the class name; there is one exactly when some config qualifies; no
   * qualifying config has a longer package; and every qualifying config before
   * it has a strictly shorter one.
   */
  lemma BestWritableConfigSpec(configs: seq<MixinConfig>, className: string)
    ensures BestWritableConfig(configs, className).None? <==>
      forall i :: 0 <= i < |configs| ==> !Qualifies(configs[i], className)
    ensures BestWritableConfig(configs, className).Some? ==>
      var best := BestWritableConfig(configs, className).value;
      best.isWritable && StartsWith(className, PkgText(best.pkg) + ".") &&
      (forall j :: 0 <= j < |configs| && Qualifies(configs[j], className) ==> PkgLength(configs[j]) <= PkgLength(best)) &&
      exists p :: (0 <= p < |configs| && configs[p] == best &&
        forall j :: 0 <= j < p && Qualifies(configs[j], className) ==> PkgLength(configs[j]) < PkgLength(best))
  {
    BestWritableConfigExists(configs, className);
    if BestWritableConfig(configs, className).Some? {
      BestWritableConfigLongest(configs, className);
      BestWritableConfigFirst(configs, className);
    }
  }
}
