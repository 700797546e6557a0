/**
 * The symbol resolver as the start-up code and the type-tree layer use it.
 *
 * The debug-information resolver itself is not part of this model; what the
 * callers rely on is captured here: the image's symbols form an ordered table
 * (the enumeration order of the debug-information symbol table), an exact
 * lookup yields the first symbol of that name, a lookup with several
 * alternative names yields the first alternative that resolves, and a regex
 * lookup yields the first symbol, in table order, whose name the regex matches.
 */
module Symbols {
  import opened Wrappers

  type Address = nat

  datatype Symbol = Symbol(name: string, address: Address)

  type SymbolTable = seq<Symbol>

  /** Raised by the required-symbol lookups (`Resolve`, `ResolveFirstMatch`). */
  datatype ResolveError = SymbolNotFound(names: seq<string>) | NoSymbolMatches(re: Regex)

  /**
   * The two regular-expression shapes the start-up code builds.
   *
   * `StemThenRepeat(stem, c)` is `Regex.Escape(stem + [c]) + "*"`: the star
   * repeats only the last character, and .NET's `IsMatch` searches anywhere
   * in the name, so the expression matches exactly the names containing `stem`.
   * `PrefixIgnoreCase(p)` is `^p` with `RegexOptions.IgnoreCase`, for a
   * lower-case ASCII `p`.
   */
  datatype Regex = StemThenRepeat(stem: string, repeated: char) | PrefixIgnoreCase(prefix: string)

  predicate IsPrefix(p: string, s: string) {
    |p| <= |s| && s[..|p|] == p
  }

  predicate Contains(s: string, stem: string)
    decreases |s|
  {
    IsPrefix(stem, s) || (|s| > 0 && Contains(s[1..], stem))
  }

  /** ASCII lower-casing; the model does no culture-specific case folding. */
  function ToLower(c: char): char {
    if 'A' <= c <= 'Z' then (c as int + 32) as char else c
  }

  function LowerAll(s: string): (r: string)
    ensures |r| == |s|
    ensures forall i :: 0 <= i < |s| ==> r[i] == ToLower(s[i])
  {
    if |s| == 0 then [] else [ToLower(s[0])] + LowerAll(s[1..])
  }

  predicate IsMatch(re: Regex, name: string) {
    match re
    case StemThenRepeat(stem, _) => Contains(name, stem)
    case PrefixIgnoreCase(p) => IsPrefix(p, LowerAll(name))
  }

  /** `TryResolve(name, out address)`: the first symbol called `name`. */
  function TryResolve(t: SymbolTable, name: string): (r: Option<Address>)
    ensures r.None? <==> forall i :: 0 <= i < |t| ==> t[i].name != name
    ensures r.Some? ==> exists i :: 0 <= i < |t| && t[i] == Symbol(name, r.value)
                                  && forall j :: 0 <= j < i ==> t[j].name != name
    decreases |t|
  {
    if |t| == 0 then None
    else if t[0].name == name then Some(t[0].address)
    else
      var r := TryResolve(t[1..], name);
      assert r.Some? ==> exists i :: 0 < i < |t| && t[i] == Symbol(name, r.value)
                                     && forall j :: 0 <= j < i ==> t[j].name != name by {
        if r.Some? {
          var i :| 0 <= i < |t[1..]| && t[1..][i] == Symbol(name, r.value)
                   && forall j :: 0 <= j < i ==> t[1..][j].name != name;
          assert forall j :: 0 <= j < i + 1 ==> t[j].name != name by {
            forall j | 0 < j < i + 1 ensures t[j].name != name {
              assert t[j] == t[1..][j - 1];
            }
          }
        }
      }
      r
  }

  /** The exact lookup of each alternative name, in order. */
  function Lookups(t: SymbolTable, names: seq<string>): (r: seq<Option<Address>>)
    ensures |r| == |names|
    ensures forall k :: 0 <= k < |names| ==> r[k] == TryResolve(t, names[k])
  {
    if |names| == 0 then []
    else
      var rest := Lookups(t, names[1..]);
      assert forall k :: 1 <= k < |names| ==> names[k] == names[1..][k - 1];
      [TryResolve(t, names[0])] + rest
  }

  /** The first present entry of `xs[from..]`; none exactly when every entry there is absent. */
  function FirstSome(xs: seq<Option<Address>>, from: nat): (r: Option<Address>)
    requires from <= |xs|
    ensures r.None? <==> forall k :: from <= k < |xs| ==> xs[k].None?
    ensures r.Some? ==> exists k :: from <= k < |xs| && xs[k] == r && forall j :: from <= j < k ==> xs[j].None?
    decreases |xs| - from
  {
    if from == |xs| then None
    else if xs[from].Some? then xs[from]
    else FirstSome(xs, from + 1)
  }

  /**
   * `Resolve(names...)`: the first alternative name that resolves; failing
   * with SymbolNotFound when none does.
   */
  function Resolve(t: SymbolTable, names: seq<string>): (r: Result<Address, ResolveError>)
    ensures r.Err? <==> forall k :: 0 <= k < |names| ==> TryResolve(t, names[k]).None?
    ensures r.Err? ==> r.error == SymbolNotFound(names)
    ensures r.Ok? ==> exists k :: 0 <= k < |names| && TryResolve(t, names[k]) == Some(r.value)
                                  && forall j :: 0 <= j < k ==> TryResolve(t, names[j]).None?
  {
    match FirstSome(Lookups(t, names), 0)
    case None => Err(SymbolNotFound(names))
    case Some(a) => Ok(a)
  }

  /** `TryResolveFirstMatch(regex, out address)`: the first symbol whose name matches. */
  function TryResolveFirstMatch(t: SymbolTable, re: Regex): (r: Option<Address>)
    ensures r.None? <==> forall i :: 0 <= i < |t| ==> !IsMatch(re, t[i].name)
    ensures r.Some? ==> exists i :: 0 <= i < |t| && t[i].address == r.value && IsMatch(re, t[i].name)
                                  && forall j :: 0 <= j < i ==> !IsMatch(re, t[j].name)
    decreases |t|
  {
    if |t| == 0 then None
    else if IsMatch(re, t[0].name) then Some(t[0].address)
    else
      var r := TryResolveFirstMatch(t[1..], re);
      assert r.Some? ==> exists i :: 0 < i < |t| && t[i].address == r.value && IsMatch(re, t[i].name)
                                     && forall j :: 0 <= j < i ==> !IsMatch(re, t[j].name) by {
        if r.Some? {
          var i :| 0 <= i < |t[1..]| && t[1..][i].address == r.value && IsMatch(re, t[1..][i].name)
                   && forall j :: 0 <= j < i ==> !IsMatch(re, t[1..][j].name);
          assert t[i + 1] == t[1..][i];
          forall j | 0 < j < i + 1 ensures !IsMatch(re, t[j].name) {
            assert t[j] == t[1..][j - 1];
          }
        }
      }
      assert r.None? ==> forall i :: 0 <= i < |t| ==> !IsMatch(re, t[i].name) by {
        if r.None? {
          forall i | 0 < i < |t| ensures !IsMatch(re, t[i].name) {
            assert t[i] == t[1..][i - 1];
          }
        }
      }
      r
  }

  /** `ResolveFirstMatch(regex)`: as above, but a missing match is an error. */
  function ResolveFirstMatch(t: SymbolTable, re: Regex): (r: Result<Address, ResolveError>)
    ensures r.Err? <==> TryResolveFirstMatch(t, re).None?
    ensures r.Ok? ==> TryResolveFirstMatch(t, re) == Some(r.value)
    ensures r.Err? ==> r.error == NoSymbolMatches(re)
  {
    match TryResolveFirstMatch(t, re)
    case None => Err(NoSymbolMatches(re))
    case Some(a) => Ok(a)
  }

  /** A regex built from a literal followed by a repeated last character matches every name that starts with the full literal. */
  lemma {:induction false} FullLiteralPrefixMatches(stem: string, c: char, name: string)
    requires IsPrefix(stem + [c], name)
    ensures IsMatch(StemThenRepeat(stem, c), name)
  {
    assert name[..|stem|] == (stem + [c])[..|stem|] == stem;
  }

  /** Containment is not anchored: a name that holds the stem at any offset is matched. */
  lemma {:induction false} ContainsAtOffset(s: string, stem: string, i: nat)
    requires i + |stem| <= |s| && s[i..i + |stem|] == stem
    ensures Contains(s, stem)
    decreases i
  {
    if i == 0 {
      assert s[..|stem|] == s[0..|stem|];
    } else {
      assert s[1..][i - 1..i - 1 + |stem|] == s[i..i + |stem|];
      ContainsAtOffset(s[1..], stem, i - 1);
    }
  }

  /** When the first alternative name is absent and the second present, `Resolve` returns the second's address. */
  lemma SecondAlternativeResolves(t: SymbolTable, first: string, second: string)
    requires TryResolve(t, first).None? && TryResolve(t, second).Some?
    ensures Resolve(t, [first, second]) == Ok(TryResolve(t, second).value)
  {
    var names := [first, second];
    var r := Resolve(t, names);
    assert TryResolve(t, names[1]).Some?;
    var k :| 0 <= k < 2 && TryResolve(t, names[k]) == Some(r.value)
            && forall j :: 0 <= j < k ==> TryResolve(t, names[j]).None?;
    assert names[0] == first;
  }
}
