/**
 * The project's build helper: how it picks the colour setting and the
 * command from its arguments, how it recognises cargo-deny's version line,
 * and which crate licenses it accepts.
 */
module Xtask {
  import opened Common

  // ---------------------------------------------------------------------------
  // Colour setting

  predicate IsColorFlag(arg: string) {
    arg == "--color" || arg == "--no-color"
  }

  /** One step of the fold: `--color` means "always", `--no-color` "never", anything else keeps the setting. */
  function ColorStep(acc: string, arg: string): string {
    if arg == "--color" then "always" else if arg == "--no-color" then "never" else acc
  }

  /** The starting setting: colour only when standard output is a terminal. */
  function InitialColor(stdoutIsTerminal: bool): string {
    if stdoutIsTerminal then "always" else "never"
  }

  /** The colour setting: the fold of every argument, the program name included, from the left. */
  function Color(stdoutIsTerminal: bool, args: seq<string>): (r: string)
    ensures r == "always" || r == "never"
    decreases |args|
  {
    if args == [] then InitialColor(stdoutIsTerminal)
    else ColorStep(Color(stdoutIsTerminal, args[..|args| - 1]), args[|args| - 1])
  }

  /** The last colour flag decides. */
  lemma {:induction false} LastColorFlagWins(stdoutIsTerminal: bool, args: seq<string>, i: nat)
    requires i < |args| && IsColorFlag(args[i])
    requires forall j | i < j < |args| :: !IsColorFlag(args[j])
    ensures Color(stdoutIsTerminal, args) == if args[i] == "--color" then "always" else "never"
    decreases |args|
  {
    if i < |args| - 1 {
      LastColorFlagWins(stdoutIsTerminal, args[..|args| - 1], i);
    }
  }

  /** Without colour flags the terminal test decides. */
  lemma {:induction false} NoColorFlagKeepsDefault(stdoutIsTerminal: bool, args: seq<string>)
    requires forall j | 0 <= j < |args| :: !IsColorFlag(args[j])
    ensures Color(stdoutIsTerminal, args) == InitialColor(stdoutIsTerminal)
    decreases |args|
  {
    if args != [] {
      NoColorFlagKeepsDefault(stdoutIsTerminal, args[..|args| - 1]);
    }
  }

  // ---------------------------------------------------------------------------
  // Command dispatch

  datatype Action =
    | ExitWithHelp(unknown: Option<string>)   // print the usage, then exit with status 1
    | RunChecks

  /** The command is the argument after the program name; only `checks` runs anything. */
  function Dispatch(args: seq<string>): (a: Action)
    requires |args| >= 1
    ensures a == RunChecks <==> |args| >= 2 && args[1] == "checks"
    ensures a.ExitWithHelp? && a.unknown.Some? <==> |args| >= 2 && args[1] !in {"--help", "-h", "checks"}
    ensures a.ExitWithHelp? && a.unknown.Some? ==> a.unknown.value == args[1]
  {
    if |args| < 2 then ExitWithHelp(None)
    else match args[1]
      case "--help" => ExitWithHelp(None)
      case "-h" => ExitWithHelp(None)
      case "checks" => RunChecks
      case cmd => ExitWithHelp(Some(cmd))
  }

  // ---------------------------------------------------------------------------
  // cargo-deny's version line

  predicate OccursAt(s: string, pat: string, i: nat) {
    i + |pat| <= |s| && s[i..i + |pat|] == pat
  }

  /** The first position at or after `from` where `pat` occurs. */
  function FindFrom(s: string, pat: string, from: nat): (r: Option<nat>)
    ensures r.Some? ==> from <= r.value && OccursAt(s, pat, r.value) && forall k | from <= k < r.value :: !OccursAt(s, pat, k)
    ensures r.None? ==> forall k | from <= k :: !OccursAt(s, pat, k)
    decreases |s| - from
  {
    if from + |pat| > |s| then None
    else if s[from..from + |pat|] == pat then Some(from)
    else FindFrom(s, pat, from + 1)
  }

  /** `str::split_once`: the text before and after the first occurrence of `pat`. */
  function SplitOnce(s: string, pat: string): (r: Option<(string, string)>)
    ensures r.Some? ==> s == r.value.0 + pat + r.value.1
    ensures r.Some? ==> forall k: nat | k < |r.value.0| :: !OccursAt(s, pat, k)
    ensures r.None? ==> forall k: nat :: !OccursAt(s, pat, k)
  {
    match FindFrom(s, pat, 0)
    case None => None
    case Some(i) =>
      assert s == s[..i] + s[i..i + |pat|] + s[i + |pat|..];
      Some((s[..i], s[i + |pat|..]))
  }

  const CargoDenyPrefix: string := "cargo-deny "

  /** The version part of cargo-deny's version line, when the line starts with exactly "cargo-deny ". */
  function CargoDenyVersion(output: string): (r: Option<string>)
    ensures r.Some? <==> |output| >= |CargoDenyPrefix| && output[..|CargoDenyPrefix|] == CargoDenyPrefix
    ensures r.Some? ==> output == CargoDenyPrefix + r.value
  {
    match SplitOnce(output, CargoDenyPrefix)
    case Some((before, rest)) =>
      if before == "" then Some(rest) else None
    case None => None
  }

  // ---------------------------------------------------------------------------
  // Licenses

  /** Unicode's White_Space characters, which `str::trim` removes. */
  predicate IsWhitespace(c: char) {
    ('\t' <= c <= '\r') || c == ' ' || c as int == 0x85 || c as int == 0xA0 || c as int == 0x1680
    || (0x2000 <= c as int <= 0x200A) || c as int == 0x2028 || c as int == 0x2029
    || c as int == 0x202F || c as int == 0x205F || c as int == 0x3000
  }

  /** The index of the first non-whitespace character at or after `i`, or `|s|`. */
  function SkipLeading(s: string, i: nat): (k: nat)
    requires i <= |s|
    ensures i <= k <= |s|
    ensures forall j | i <= j < k :: IsWhitespace(s[j])
    ensures k < |s| ==> !IsWhitespace(s[k])
    decreases |s| - i
  {
    if i < |s| && IsWhitespace(s[i]) then SkipLeading(s, i + 1) else i
  }

  /** The end of `s[lo..hi]` once its trailing whitespace is dropped. */
  function SkipTrailing(s: string, lo: nat, hi: nat): (k: nat)
    requires lo <= hi <= |s|
    ensures lo <= k <= hi
    ensures forall j | k <= j < hi :: IsWhitespace(s[j])
    ensures lo < k ==> !IsWhitespace(s[k - 1])
    decreases hi - lo
  {
    if lo < hi && IsWhitespace(s[hi - 1]) then SkipTrailing(s, lo, hi - 1) else hi
  }

  /** Where the text kept by `Trim` starts. */
  function TrimOffset(s: string): nat
    ensures TrimOffset(s) <= |s|
  {
    SkipLeading(s, 0)
  }

  /** `str::trim`: the part of `s` between its leading and trailing whitespace. */
  function Trim(s: string): (r: string)
    ensures var lo := TrimOffset(s);
      && lo + |r| <= |s| && r == s[lo..lo + |r|]
      && (forall j | 0 <= j < lo :: IsWhitespace(s[j]))
      && (forall j | lo + |r| <= j < |s| :: IsWhitespace(s[j]))
      && (r != [] ==> !IsWhitespace(r[0]) && !IsWhitespace(r[|r| - 1]))
  {
    var lo := SkipLeading(s, 0);
    s[lo..SkipTrailing(s, lo, |s|)]
  }

  const Gpl: string := "GPL-3.0-or-later"

  /** The accepted licenses, and the crates held to one license of their own. */
  datatype LicensePolicy = LicensePolicy(expected: seq<string>, specialCased: map<string, string>)

  /** The build helper's policy: the GPL is accepted only for the project's own crates. */
  const Policy: LicensePolicy := LicensePolicy(
    [
      "(MIT OR Apache-2.0) AND Unicode-DFS-2016",
      "0BSD OR MIT OR Apache-2.0",
      "Apache-2.0",
      "Apache-2.0 / MIT",
      "Apache-2.0 OR BSL-1.0",
      "Apache-2.0 OR MIT",
      "Apache-2.0 WITH LLVM-exception OR Apache-2.0 OR MIT",
      "Apache-2.0/MIT",
      "BSD-2-Clause",
      "BSD-2-Clause OR MIT OR Apache-2.0",
      "BSD-3-Clause",
      "BSD-3-Clause OR MIT OR Apache-2.0",
      "CC0-1.0",
      "CC0-1.0 OR Artistic-2.0",
      "ISC",
      "MIT",
      "MIT / Apache-2.0",
      "MIT OR Apache-2.0",
      "MIT OR Apache-2.0 OR Zlib",
      "MIT OR Zlib OR Apache-2.0",
      "MIT-0",
      "MIT/Apache-2.0",
      "Unlicense OR MIT",
      "Unlicense/MIT",
      "Zlib",
      "Zlib AND (MIT OR Apache-2.0)",
      "Zlib OR Apache-2.0 OR MIT"
    ],
    map[
      "xtask" := Gpl,
      "mechaenetia_client" := Gpl,
      "mechaenetia_client_wgpu" := Gpl,
      "mechaenetia_engine" := Gpl,
      "mechaenetia_server" := Gpl,
      "mechaenetia_server_dedicated" := Gpl,
      "mechaenetia_utils" := Gpl
    ])

  datatype Package = Package(name: string, license: Option<string>)

  datatype LicenseError =
    | SpecialCaseMismatch(name: string, license: string, expected: string)
    | UnknownLicense(name: string, license: string)
    | NoLicense(name: string)

  function Message(e: LicenseError): (m: string)
    ensures m != ""
  {
    match e
    case SpecialCaseMismatch(name, license, expected) =>
      "Special cased license for " + name + ": " + license + " != " + expected + "\n"
    case UnknownLicense(name, license) => "Unknown license for " + name + ": " + license + "\n"
    case NoLicense(name) => "No license for " + name + "\n"
  }

  function Render(es: seq<LicenseError>): string
    decreases |es|
  {
    if es == [] then "" else Render(es[..|es| - 1]) + Message(es[|es| - 1])
  }

  /** The errors one package records. */
  function PackageErrors(policy: LicensePolicy, p: Package): seq<LicenseError> {
    match p.license
    case None => [NoLicense(p.name)]
    case Some(l) =>
      var t := Trim(l);
      if p.name in policy.specialCased && policy.specialCased[p.name] == t then []
      else
        (if p.name in policy.specialCased then [SpecialCaseMismatch(p.name, t, policy.specialCased[p.name])] else [])
        + (if t !in policy.expected then [UnknownLicense(p.name, t)] else [])
  }

  /** Reference definition of an acceptable package. */
  predicate Acceptable(policy: LicensePolicy, p: Package) {
    p.license.Some? &&
    if p.name in policy.specialCased then policy.specialCased[p.name] == Trim(p.license.value)
    else Trim(p.license.value) in policy.expected
  }

  /** The errors of all packages, in order. */
  function AllErrors(policy: LicensePolicy, pkgs: seq<Package>): seq<LicenseError>
    decreases |pkgs|
  {
    if pkgs == [] then [] else AllErrors(policy, pkgs[..|pkgs| - 1]) + PackageErrors(policy, pkgs[|pkgs| - 1])
  }

  /** A package records no error exactly when it is acceptable. */
  lemma PackageErrorsIffUnacceptable(policy: LicensePolicy, p: Package)
    ensures PackageErrors(policy, p) == [] <==> Acceptable(policy, p)
  {
  }

  /** A special-cased crate with another license gets both complaints when that license is not accepted either. */
  lemma SpecialCaseMismatchErrors(policy: LicensePolicy, p: Package)
    requires p.license.Some? && p.name in policy.specialCased && policy.specialCased[p.name] != Trim(p.license.value)
    ensures var t := Trim(p.license.value);
      PackageErrors(policy, p) == [SpecialCaseMismatch(p.name, t, policy.specialCased[p.name])]
        + if t in policy.expected then [] else [UnknownLicense(p.name, t)]
  {
  }

  /** The build helper's policy accepts the GPL for its special-cased crates only. */
  lemma PolicyGplInHouse()
    ensures Gpl !in Policy.expected
    ensures forall n | n in Policy.specialCased :: Policy.specialCased[n] == Gpl
  {
    GplNotExpected();
  }

  lemma GplNotExpected()
    ensures Gpl !in Policy.expected
  {
  }

  /** Under the build helper's policy, no dependency outside the project can be under the GPL. */
  lemma GplOnlyForTheProject(p: Package)
    requires p.license.Some? && Trim(p.license.value) == Gpl
    ensures Acceptable(Policy, p) <==> p.name in Policy.specialCased
  {
    PolicyGplInHouse();
  }

  lemma {:induction false} RenderEmpty(es: seq<LicenseError>)
    ensures Render(es) == "" <==> es == []
    decreases |es|
  {
    if es != [] {
      RenderEmpty(es[..|es| - 1]);
    }
  }

  lemma {:induction false} AllErrorsEmpty(policy: LicensePolicy, pkgs: seq<Package>)
    ensures AllErrors(policy, pkgs) == [] <==> forall i | 0 <= i < |pkgs| :: Acceptable(policy, pkgs[i])
    decreases |pkgs|
  {
    if pkgs != [] {
      var init, last := pkgs[..|pkgs| - 1], pkgs[|pkgs| - 1];
      assert pkgs == init + [last];
      AllErrorsEmpty(policy, init);
      PackageErrorsIffUnacceptable(policy, last);
      AcceptableSplit(policy, init, last);
    }
  }

  lemma AcceptableSplit(policy: LicensePolicy, init: seq<Package>, last: Package)
    ensures (forall i | 0 <= i < |init + [last]| :: Acceptable(policy, (init + [last])[i]))
        <==> (forall i | 0 <= i < |init| :: Acceptable(policy, init[i])) && Acceptable(policy, last)
  {
    assert forall i | 0 <= i < |init| :: (init + [last])[i] == init[i];
    assert (init + [last])[|init|] == last;
  }

  lemma RenderAppend(es: seq<LicenseError>, more: seq<LicenseError>)
    ensures Render(es + more) == Render(es) + Render(more)
    decreases |more|
  {
    if more != [] {
      assert (es + more)[..|es + more| - 1] == es + more[..|more| - 1];
      RenderAppend(es, more[..|more| - 1]);
    } else {
      assert es + more == es;
    }
  }

  /** One iteration of the license loop: appends the package's complaints to `errors`. */
  method CheckPackage(policy: LicensePolicy, errors: string, p: Package) returns (updated: string)
    ensures updated == errors + Render(PackageErrors(policy, p))
  {
    updated := errors;
    match p.license {
      case Some(l) =>
        var license := Trim(l);
        ghost var mismatch := "";
        if p.name in policy.specialCased {
          var sc := policy.specialCased[p.name];
          if sc == license {
            assert PackageErrors(policy, p) == [] && errors + "" == errors;
            return;
          }
          mismatch := Message(SpecialCaseMismatch(p.name, license, sc));
          updated := updated + Message(SpecialCaseMismatch(p.name, license, sc));
          assert Render([SpecialCaseMismatch(p.name, license, sc)]) == mismatch;
        } else {
          assert errors + "" == errors;
        }
        ghost var unknown := "";
        if license !in policy.expected {
          unknown := Message(UnknownLicense(p.name, license));
          updated := updated + Message(UnknownLicense(p.name, license));
          assert Render([UnknownLicense(p.name, license)]) == unknown;
        } else {
          assert updated + "" == updated;
        }
        assert updated == errors + mismatch + unknown;
        ghost var a := if p.name in policy.specialCased then [SpecialCaseMismatch(p.name, license, policy.specialCased[p.name])] else [];
        ghost var b := if license !in policy.expected then [UnknownLicense(p.name, license)] else [];
        assert Render(a) == mismatch && Render(b) == unknown && PackageErrors(policy, p) == a + b;
        RenderAppend(a, b);
      case None =>
        updated := updated + Message(NoLicense(p.name));
        assert Render([NoLicense(p.name)]) == Message(NoLicense(p.name));
    }
  }

  /**
   * `cmd_checks_licenses`: collects the error text over all packages; the
   * check passes only when there is none.
   */
  method CheckLicenses(policy: LicensePolicy, pkgs: seq<Package>) returns (errors: string, passed: bool)
    ensures errors == Render(AllErrors(policy, pkgs))
    ensures passed <==> forall i | 0 <= i < |pkgs| :: Acceptable(policy, pkgs[i])
  {
    errors := "";
    for i := 0 to |pkgs|
      invariant errors == Render(AllErrors(policy, pkgs[..i]))
    {
      assert pkgs[..i + 1][..i] == pkgs[..i];
      RenderAppend(AllErrors(policy, pkgs[..i]), PackageErrors(policy, pkgs[i]));
      errors := CheckPackage(policy, errors, pkgs[i]);
    }
    assert pkgs[..|pkgs|] == pkgs;
    RenderEmpty(AllErrors(policy, pkgs));
    AllErrorsEmpty(policy, pkgs);
    passed := errors == "";
  }
}
