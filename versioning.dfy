/**
 * Versioned index names (`{base}-{n}`): parsing, the highest existing version and
 * the next one.
 *
 * The source builds regular expressions by splicing the base name in unescaped, so
 * the model only speaks about base names without regex metacharacters
 * (`LiteralBase`). The anchor `$` is modelled as Python's `re` has it without
 * MULTILINE: it matches at the end of the name or just before one final newline.
 */
module Versioning {
  import opened Wrappers
  import opened Strings

  /** Base names in which no character has a meaning in a Python regex. */
  predicate LiteralBase(base: string) {
    forall i :: 0 <= i < |base| ==> base[i] !in {'.', '^', '$', '*', '+', '?', '{', '}', '[', ']', '\\', '|', '(', ')'}
  }

  /** What `$` accepts as the rest of the name: nothing, or one final newline. */
  predicate AtEnd(rest: string) {
    rest == "" || rest == "\n"
  }

  /** `rest` is matched by `-([0-9]+)$`. */
  predicate IsVersionSuffix(rest: string) {
    && |rest| >= 2
    && rest[0] == '-'
    && LeadingDigits(rest[1..]) >= 1
    && AtEnd(rest[1 + LeadingDigits(rest[1..])..])
  }

  predicate StartsWith(name: string, prefix: string) {
    |prefix| <= |name| && name[..|prefix|] == prefix
  }

  /** `has_base_name`: `re.match(rf'{base_name}(-[0-9]+)?$', index_name)` succeeds. */
  predicate HasBaseName(name: string, base: string)
    requires LiteralBase(base)
  {
    StartsWith(name, base) && (AtEnd(name[|base|..]) || IsVersionSuffix(name[|base|..]))
  }

  /** `version_from_name`: the number captured by `{base_name}-([0-9]+)$`, else None. */
  function VersionFromName(name: string, base: string): Option<nat>
    requires LiteralBase(base)
  {
    if StartsWith(name, base) && IsVersionSuffix(name[|base|..]) then
      var digits := name[|base| + 1..];
      Some(DigitsValue(digits[..LeadingDigits(digits)]))
    else
      None
  }

  /** `name` is spelled `base`, `-`, the digits `d`, then what `$` accepts. */
  predicate VersionedAs(name: string, base: string, d: string, t: string) {
    d != [] && AllDigits(d) && AtEnd(t) && name == base + "-" + d + t
  }

  lemma {:induction false} LeadingDigitsOfDigits(d: string, t: string)
    requires AllDigits(d)
    requires t == [] || !IsDigit(t[0])
    ensures LeadingDigits(d + t) == |d|
    decreases |d|
  {
    if d != [] {
      assert (d + t)[1..] == d[1..] + t;
      LeadingDigitsOfDigits(d[1..], t);
    }
  }

  /** A name spelled `{base}-{digits}` (optionally with a final newline) parses to the digits' value. */
  lemma {:induction false} VersionOfVersionedName(name: string, base: string, d: string, t: string)
    requires LiteralBase(base)
    requires VersionedAs(name, base, d, t)
    ensures VersionFromName(name, base) == Some(DigitsValue(d))
    ensures HasBaseName(name, base)
  {
    assert name[..|base|] == base;
    var rest := name[|base|..];
    assert rest == "-" + d + t;
    assert rest[1..] == d + t;
    LeadingDigitsOfDigits(d, t);
    assert rest[1 + |d|..] == t;
    assert name[|base| + 1..] == d + t;
    assert (d + t)[..|d|] == d;
  }

  /**
   * `version_from_name(name, base)` is a number exactly when `name` is `base`, a dash,
   * a non-empty run of digits and at most a final newline; the number is the
   * digits' decimal value (leading zeros allowed).
   */
  lemma {:induction false} VersionFromNameSpec(name: string, base: string)
    requires LiteralBase(base)
    ensures VersionFromName(name, base).Some? <==> exists d, t :: VersionedAs(name, base, d, t)
    ensures forall d, t :: VersionedAs(name, base, d, t) ==> VersionFromName(name, base) == Some(DigitsValue(d))
  {
    forall d, t | VersionedAs(name, base, d, t)
      ensures VersionFromName(name, base) == Some(DigitsValue(d))
    {
      VersionOfVersionedName(name, base, d, t);
    }
    if VersionFromName(name, base).Some? {
      var digits := name[|base| + 1..];
      var k := LeadingDigits(digits);
      var d, t := digits[..k], digits[k..];
      assert name == name[..|base|] + name[|base|..];
      assert name[|base|..] == "-" + digits;
      assert digits == d + t;
      assert VersionedAs(name, base, d, t);
    }
  }

  /** Round trip: the name `{base}-{n}` that the planner builds parses back to `n`. */
  lemma {:induction false} VersionRoundTrip(base: string, n: nat)
    requires LiteralBase(base)
    ensures VersionFromName(base + "-" + NatToString(n), base) == Some(n)
  {
    var d := NatToString(n);
    assert base + "-" + d == base + "-" + d + "";
    VersionOfVersionedName(base + "-" + d, base, d, "");
    NatToStringValue(n);
  }

  /** `has_base_name` holds exactly for `base` itself (with at most a final newline) and its versions. */
  lemma {:induction false} HasBaseNameSpec(name: string, base: string)
    requires LiteralBase(base)
    ensures HasBaseName(name, base) <==> name == base || name == base + "\n" || VersionFromName(name, base).Some?
  {
    if StartsWith(name, base) {
      assert name == base + name[|base|..];
    }
    if name == base + "\n" {
      assert name[..|base|] == base && name[|base|..] == "\n";
    }
  }

  /** Every name that has a version also has the base name. */
  lemma {:induction false} VersionedNameHasBaseName(name: string, base: string)
    requires LiteralBase(base)
    requires VersionFromName(name, base).Some?
    ensures HasBaseName(name, base)
  {
  }

  /** Examples of the docstring and the unit tests that parse. */
  lemma {:induction false} VersionFromNameParses()
    ensures VersionFromName("foo-1", "foo") == Some(1)
    ensures VersionFromName("foo-11", "foo") == Some(11)
  {
    VersionOfVersionedName("foo-1", "foo", "1", "");
    VersionOfVersionedName("foo-11", "foo", "11", "");
    assert DigitsValue("11") == 10 * DigitsValue("1") + 1;
  }

  /** The loose `[0-9]+` accepts leading zeros and version 0. */
  lemma {:induction false} VersionFromNameLoose()
    ensures VersionFromName("foo-01", "foo") == Some(1)
    ensures VersionFromName("foo-0", "foo") == Some(0)
  {
    VersionOfVersionedName("foo-01", "foo", "01", "");
    assert DigitsValue("01") == 10 * DigitsValue("0") + 1;
    VersionOfVersionedName("foo-0", "foo", "0", "");
  }

  /** The bare base name has no version. */
  lemma {:induction false} VersionFromNameBare()
    ensures VersionFromName("foo", "foo") == None
  {
    assert "foo"[3..] == "";
  }

  /** An extra name component has no version. */
  lemma {:induction false} VersionFromNameExtraComponent()
    ensures VersionFromName("foo-bar-3", "foo") == None
  {
    var rest := "foo-bar-3"[3..];
    assert rest[1..] == "bar-3";
    assert LeadingDigits(rest[1..]) == 0;
  }

  /** Trailing text after the digits has no version. */
  lemma {:induction false} VersionFromNameTrailingText()
    ensures VersionFromName("foo-1-or-something", "foo") == None
  {
    var digits := "foo-1-or-something"[4..];
    assert digits == "1-or-something";
    assert digits[1..] == "-or-something";
    assert LeadingDigits(digits[1..]) == 0;
    assert LeadingDigits(digits) == 1;
    assert digits[1..] != "" && digits[1..] != "\n";
  }

  /** A decimal point after the digits has no version. */
  lemma {:induction false} VersionFromNameDecimal()
    ensures VersionFromName("foo-5.3", "foo") == None
  {
    var digits := "foo-5.3"[4..];
    assert digits == "5.3";
    assert digits[1..] == ".3";
    assert LeadingDigits(digits[1..]) == 0;
    assert LeadingDigits(digits) == 1;
    assert digits[1..] != "" && digits[1..] != "\n";
  }

  // ---------------------------------------------------------------------------
  // Filtering names by family

  /** The names satisfying `has_base_name`, in their original order. */
  function FilterByBaseName(names: seq<string>, base: string): (r: seq<string>)
    requires LiteralBase(base)
    ensures |r| <= |names|
    ensures forall x :: x in r <==> x in names && HasBaseName(x, base)
    decreases |names|
  {
    if names == [] then []
    else
      (if HasBaseName(names[0], base) then [names[0]] else []) + FilterByBaseName(names[1..], base)
  }

  /**
   * `indices_with_base_name`: of the indices the engine lists (the `base*` pattern
   * reaches every name that starts with `base`), those that have the base name;
   * `[]` when none does.
   */
  function IndicesWithBaseName(indices: seq<string>, base: string): (r: seq<string>)
    requires LiteralBase(base)
    ensures forall x :: x in r <==> x in indices && HasBaseName(x, base)
    ensures r == [] <==> forall x :: x in indices ==> !HasBaseName(x, base)
  {
    var r := FilterByBaseName(indices, base);
    assert r != [] ==> r[0] in r;
    r
  }

  // ---------------------------------------------------------------------------
  // Highest and next version

  /** The largest version parsed from `names`, None when no name parses. */
  function MaxVersion(names: seq<string>, base: string): (r: Option<nat>)
    requires LiteralBase(base)
    ensures r.None? <==> forall i :: 0 <= i < |names| ==> VersionFromName(names[i], base).None?
    ensures r.Some? ==> exists i :: 0 <= i < |names| && VersionFromName(names[i], base) == r
    ensures forall i :: 0 <= i < |names| && VersionFromName(names[i], base).Some? ==>
              r.Some? && VersionFromName(names[i], base).value <= r.value
    decreases |names|
  {
    if names == [] then None
    else
      var rest := MaxVersion(names[1..], base);
      assert forall i :: 1 <= i < |names| ==> names[i] == names[1..][i - 1];
      match VersionFromName(names[0], base)
      case None => rest
      case Some(v) => if rest.Some? && rest.value >= v then rest else Some(v)
  }

  /**
   * `highest_version_in_result`: the maximum parsed version, 0 when no name parses
   * (Python's `max` of an empty list raises and the handler returns 0).
   */
  function HighestVersionInResult(names: seq<string>, base: string): (r: nat)
    requires LiteralBase(base)
    ensures forall i :: 0 <= i < |names| && VersionFromName(names[i], base).Some? ==>
              VersionFromName(names[i], base).value <= r
    ensures (forall i :: 0 <= i < |names| ==> VersionFromName(names[i], base).None?) ==> r == 0
    ensures (exists i :: 0 <= i < |names| && VersionFromName(names[i], base).Some?) ==>
              exists i :: 0 <= i < |names| && VersionFromName(names[i], base) == Some(r)
  {
    MaxVersion(names, base).GetOr(0)
  }

  /** Unit test: of `test-versioning-1` and `test-versioning-2` the highest version is 2. */
  lemma {:induction false} HighestVersionOfTwo()
    ensures HighestVersionInResult(["test-versioning-1", "test-versioning-2"], "test-versioning") == 2
  {
    var base := "test-versioning";
    var names := ["test-versioning-1", "test-versioning-2"];
    VersionOfVersionedName(names[0], base, "1", "");
    VersionOfVersionedName(names[1], base, "2", "");
    assert names[1..] == ["test-versioning-2"];
    assert MaxVersion(names[1..][1..], base) == None;
    assert MaxVersion(names[1..], base) == Some(2);
  }

  /** Unit test: `test-versioning-5` alone gives 5, and no names give 0. */
  lemma {:induction false} HighestVersionOfOneOrNone()
    ensures HighestVersionInResult(["test-versioning-5"], "test-versioning") == 5
    ensures HighestVersionInResult([], "test-versioning") == 0
  {
    var names := ["test-versioning-5"];
    VersionOfVersionedName(names[0], "test-versioning", "5", "");
    assert names[1..] == [];
    assert MaxVersion([], "test-versioning") == None;
    assert MaxVersion(names, "test-versioning") == Some(5);
  }

  /** `next_version_number`: 1 when no index has the base name, else the highest version plus one. */
  function NextVersionNumber(indices: seq<string>, base: string): (r: nat)
    requires LiteralBase(base)
    ensures r >= 1
  {
    var response := IndicesWithBaseName(indices, base);
    if response == [] then 1 else HighestVersionInResult(response, base) + 1
  }

  /** Dropping names without the base name never drops a version. */
  lemma {:induction false} MaxVersionOfFiltered(names: seq<string>, base: string)
    requires LiteralBase(base)
    ensures MaxVersion(FilterByBaseName(names, base), base) == MaxVersion(names, base)
    decreases |names|
  {
    if names != [] {
      MaxVersionOfFiltered(names[1..], base);
      var rest := FilterByBaseName(names[1..], base);
      if HasBaseName(names[0], base) {
        assert ([names[0]] + rest)[1..] == rest;
      } else {
        assert [] + rest == rest;
      }
    }
  }

  /** `next_version_number` is the highest version among all listed names plus one. */
  lemma {:induction false} NextVersionIsHighestPlusOne(indices: seq<string>, base: string)
    requires LiteralBase(base)
    ensures NextVersionNumber(indices, base) == HighestVersionInResult(indices, base) + 1
  {
    MaxVersionOfFiltered(indices, base);
    if IndicesWithBaseName(indices, base) == [] {
      assert forall i :: 0 <= i < |indices| ==> VersionFromName(indices[i], base).None?;
    }
  }

  /** The next version is greater than every existing version of the family. */
  lemma {:induction false} NextVersionExceedsAll(indices: seq<string>, base: string)
    requires LiteralBase(base)
    ensures forall i :: 0 <= i < |indices| && VersionFromName(indices[i], base).Some? ==>
              VersionFromName(indices[i], base).value < NextVersionNumber(indices, base)
  {
    NextVersionIsHighestPlusOne(indices, base);
  }

  /** The next version is one more than an existing version, unless it is 1. */
  lemma {:induction false} NextVersionFollowsExisting(indices: seq<string>, base: string)
    requires LiteralBase(base)
    ensures NextVersionNumber(indices, base) == 1 ||
              exists i :: 0 <= i < |indices| && VersionFromName(indices[i], base) == Some(NextVersionNumber(indices, base) - 1)
  {
    NextVersionIsHighestPlusOne(indices, base);
    var m := MaxVersion(indices, base);
    if m.Some? {
      var i :| 0 <= i < |indices| && VersionFromName(indices[i], base) == m;
      assert VersionFromName(indices[i], base) == Some(NextVersionNumber(indices, base) - 1);
    }
  }

  /** Both bounds on the next version. */
  lemma {:induction false} NextVersionBounds(indices: seq<string>, base: string)
    requires LiteralBase(base)
    ensures forall i :: 0 <= i < |indices| && VersionFromName(indices[i], base).Some? ==>
              VersionFromName(indices[i], base).value < NextVersionNumber(indices, base)
    ensures NextVersionNumber(indices, base) == 1 ||
              exists i :: 0 <= i < |indices| && VersionFromName(indices[i], base) == Some(NextVersionNumber(indices, base) - 1)
  {
    NextVersionExceedsAll(indices, base);
    NextVersionFollowsExisting(indices, base);
  }

  /** The versioned name the planner allocates, `{base}-{next}`, is not an existing index. */
  lemma {:induction false} NextVersionNameIsFresh(indices: seq<string>, base: string)
    requires LiteralBase(base)
    ensures base + "-" + NatToString(NextVersionNumber(indices, base)) !in indices
  {
    var n := NextVersionNumber(indices, base);
    var name := base + "-" + NatToString(n);
    NextVersionBounds(indices, base);
    VersionRoundTrip(base, n);
    forall i | 0 <= i < |indices| ensures indices[i] != name {
      if VersionFromName(indices[i], base).Some? {
        assert VersionFromName(indices[i], base).value < n;
      }
    }
  }
}
