/**
 * The build helper's tiny shell: splitting a command line into arguments,
 * and a stack of working directories and of environment overrides that are
 * undone in reverse order.
 */
module NotBash {
  import opened Common

  // ---------------------------------------------------------------------------
  // Splitting strings

  /** `s1 + [sep] + s2 + [sep] + ...`: the inverse of splitting on `sep`. */
  function JoinWith(pieces: seq<string>, sep: char): string
    requires |pieces| >= 1
    decreases |pieces|
  {
    if |pieces| == 1 then pieces[0] else pieces[0] + [sep] + JoinWith(pieces[1..], sep)
  }

  lemma JoinWithHead(x: string, pieces: seq<string>, sep: char)
    requires |pieces| >= 1
    ensures JoinWith([x + pieces[0]] + pieces[1..], sep) == x + JoinWith(pieces, sep)
  {
    var l := [x + pieces[0]] + pieces[1..];
    assert l[1..] == pieces[1..];
  }

  /** `str::split(sep)`: the pieces between separators, empty ones included; there is always at least one. */
  function Split(s: string, sep: char): (r: seq<string>)
    ensures |r| >= 1 && JoinWith(r, sep) == s
    ensures forall i | 0 <= i < |r| :: sep !in r[i]
    decreases |s|
  {
    if s == [] then [""]
    else
      var rest := Split(s[1..], sep);
      if s[0] == sep then
        assert ([""] + rest)[1..] == rest;
        [""] + rest
      else
        JoinWithHead([s[0]], rest, sep);
        assert forall i | 1 <= i < |rest| :: ([[s[0]] + rest[0]] + rest[1..])[i] == rest[i];
        [[s[0]] + rest[0]] + rest[1..]
  }

  /** Without a separator there is a single piece: the whole string. */
  lemma {:induction false} SplitWithoutSeparator(s: string, sep: char)
    requires sep !in s
    ensures Split(s, sep) == [s]
    decreases |s|
  {
    if s != [] {
      SplitWithoutSeparator(s[1..], sep);
      assert [s[0]] + s[1..] == s;
    }
  }

  /** Space, tab, line feed, form feed and carriage return. */
  predicate IsAsciiWhitespace(c: char) {
    c == ' ' || c == '\t' || c == '\n' || c as int == 0x0C || c == '\r'
  }

  /** The characters of `s` that are not ASCII whitespace, in order. */
  function NonWhitespace(s: string): string
    decreases |s|
  {
    if s == [] then [] else (if IsAsciiWhitespace(s[0]) then [] else [s[0]]) + NonWhitespace(s[1..])
  }

  function Concat(ws: seq<string>): string
    decreases |ws|
  {
    if ws == [] then [] else ws[0] + Concat(ws[1..])
  }

  predicate IsToken(t: string) {
    t != [] && forall j | 0 <= j < |t| :: !IsAsciiWhitespace(t[j])
  }

  /** The first index at or after `i` that is not ASCII whitespace, or `|s|`. */
  function WordStart(s: string, i: nat): (k: nat)
    requires i <= |s|
    ensures i <= k <= |s|
    ensures forall j | i <= j < k :: IsAsciiWhitespace(s[j])
    ensures k < |s| ==> !IsAsciiWhitespace(s[k])
    decreases |s| - i
  {
    if i < |s| && IsAsciiWhitespace(s[i]) then WordStart(s, i + 1) else i
  }

  /** The first index at or after `i` that is ASCII whitespace, or `|s|`. */
  function WordEnd(s: string, i: nat): (k: nat)
    requires i <= |s|
    ensures i <= k <= |s|
    ensures forall j | i <= j < k :: !IsAsciiWhitespace(s[j])
    ensures k < |s| ==> IsAsciiWhitespace(s[k])
    decreases |s| - i
  {
    if i < |s| && !IsAsciiWhitespace(s[i]) then WordEnd(s, i + 1) else i
  }

  lemma NonWhitespaceStep(s: string, i: nat)
    requires i < |s|
    ensures NonWhitespace(s[i..]) == (if IsAsciiWhitespace(s[i]) then [] else [s[i]]) + NonWhitespace(s[i + 1..])
  {
    assert s[i..][1..] == s[i + 1..];
  }

  /** Whitespace contributes nothing. */
  lemma {:induction false} SkippedSpan(s: string, i: nat, k: nat)
    requires i <= k <= |s|
    requires forall j | i <= j < k :: IsAsciiWhitespace(s[j])
    ensures NonWhitespace(s[i..]) == NonWhitespace(s[k..])
    decreases k - i
  {
    if i < k {
      NonWhitespaceStep(s, i);
      SkippedSpan(s, i + 1, k);
    }
  }

  /** A run without whitespace is kept whole. */
  lemma {:induction false} KeptSpan(s: string, i: nat, k: nat)
    requires i <= k <= |s|
    requires forall j | i <= j < k :: !IsAsciiWhitespace(s[j])
    ensures NonWhitespace(s[i..]) == s[i..k] + NonWhitespace(s[k..])
    decreases k - i
  {
    if i < k {
      NonWhitespaceStep(s, i);
      KeptSpan(s, i + 1, k);
      assert s[i..k] == [s[i]] + s[i + 1..k];
    } else {
      assert s[i..k] == [];
    }
  }

  /** The words of `s[i..]`. */
  function WordsFrom(s: string, i: nat): (r: seq<string>)
    requires i <= |s|
    ensures forall n | 0 <= n < |r| :: IsToken(r[n])
    ensures Concat(r) == NonWhitespace(s[i..])
    decreases |s| - i
  {
    var a := WordStart(s, i);
    SkippedSpan(s, i, a);
    if a == |s| then
      assert s[a..] == [];
      []
    else
      var b := WordEnd(s, a);
      KeptSpan(s, a, b);
      var ws := WordsFrom(s, b);
      var r := [s[a..b]] + ws;
      assert r[1..] == ws;
      r
  }

  /**
   * `str::split_ascii_whitespace`: the maximal runs without ASCII whitespace.
   * Every word is non-empty and free of whitespace, and together they are
   * exactly the non-whitespace characters of `s`, in order.
   */
  function Words(s: string): (r: seq<string>)
    ensures forall i | 0 <= i < |r| :: IsToken(r[i])
    ensures Concat(r) == NonWhitespace(s)
  {
    assert s[0..] == s;
    WordsFrom(s, 0)
  }

  /** A run of ASCII whitespace, possibly empty. */
  predicate IsGap(g: string) {
    forall j | 0 <= j < |g| :: IsAsciiWhitespace(g[j])
  }

  /** `g0 + w0 + g1 + w1 + ... + wn + gn+1`: words laid out between gaps. */
  function Interleave(gaps: seq<string>, words: seq<string>): string
    requires |gaps| == |words| + 1
    decreases |words|
  {
    if words == [] then gaps[0] else gaps[0] + words[0] + Interleave(gaps[1..], words[1..])
  }

  /** Tokens separated by whitespace: the gaps between two words are non-empty, the outer ones may be empty. */
  predicate Separated(gaps: seq<string>, words: seq<string>) {
    && |gaps| == |words| + 1
    && (forall k | 0 <= k < |gaps| :: IsGap(gaps[k]))
    && (forall k | 0 < k < |words| :: gaps[k] != [])
    && (forall k | 0 <= k < |words| :: IsToken(words[k]))
  }

  /** The words of a suffix laid out as tokens between whitespace gaps are exactly those tokens. */
  lemma {:induction false} WordsFromLayout(s: string, i: nat, gaps: seq<string>, words: seq<string>)
    requires i <= |s| && Separated(gaps, words) && s[i..] == Interleave(gaps, words)
    ensures WordsFrom(s, i) == words
    decreases |words|
  {
    var g := gaps[0];
    var a := i + |g|;
    if words == [] {
      assert s[i..] == g;
      forall j | i <= j < |s|
        ensures IsAsciiWhitespace(s[j])
      {
        assert s[j] == s[i..][j - i];
      }
      assert WordStart(s, i) == |s|;
    } else {
      var w := words[0];
      var rest := Interleave(gaps[1..], words[1..]);
      assert s[i..] == g + w + rest;
      var b := a + |w|;
      assert s[i..][|g|..|g| + |w|] == w && s[i..][|g| + |w|..] == rest;
      assert s[a..b] == s[i..][|g|..|g| + |w|];
      assert s[b..] == s[i..][|g| + |w|..];
      forall j | i <= j < a
        ensures IsAsciiWhitespace(s[j])
      {
        assert s[j] == g[j - i];
      }
      assert s[a] == w[0];
      assert WordStart(s, i) == a;
      forall j | a <= j < b
        ensures !IsAsciiWhitespace(s[j])
      {
        assert s[j] == w[j - a];
      }
      if b < |s| {
        assert s[b] == rest[0];
        if |words| > 1 {
          assert rest[0] == gaps[1][0];
        } else {
          assert rest == gaps[1];
        }
      }
      assert WordEnd(s, a) == b;
      WordsFromLayout(s, b, gaps[1..], words[1..]);
    }
  }

  /** `split_ascii_whitespace` finds exactly the tokens of any layout: the split is the maximal one. */
  lemma WordsOfLayout(gaps: seq<string>, words: seq<string>)
    requires Separated(gaps, words)
    ensures Words(Interleave(gaps, words)) == words
  {
    var s := Interleave(gaps, words);
    assert s[0..] == s;
    WordsFromLayout(s, 0, gaps, words);
  }

  /** A gap and a token put in front of a layout give a layout. */
  lemma SeparatedCons(g: string, w: string, gaps: seq<string>, words: seq<string>)
    requires IsGap(g) && IsToken(w) && Separated(gaps, words) && (words != [] ==> gaps[0] != [])
    ensures Separated([g] + gaps, [w] + words)
    ensures Interleave([g] + gaps, [w] + words) == g + w + Interleave(gaps, words)
  {
    var gs, ws := [g] + gaps, [w] + words;
    assert gs[1..] == gaps && ws[1..] == words;
    assert forall k | 1 <= k < |gs| :: gs[k] == gaps[k - 1];
    assert forall k | 1 <= k < |ws| :: ws[k] == words[k - 1];
  }

  lemma GapSlice(s: string, i: nat, a: nat)
    requires i <= a <= |s| && forall j | i <= j < a :: IsAsciiWhitespace(s[j])
    ensures IsGap(s[i..a])
  {
    forall j | 0 <= j < a - i
      ensures IsAsciiWhitespace(s[i..a][j])
    {
      assert s[i..a][j] == s[i + j];
    }
  }

  lemma TokenSlice(s: string, a: nat, b: nat)
    requires a < b <= |s| && forall j | a <= j < b :: !IsAsciiWhitespace(s[j])
    ensures IsToken(s[a..b])
  {
    forall j | 0 <= j < b - a
      ensures !IsAsciiWhitespace(s[a..b][j])
    {
      assert s[a..b][j] == s[a + j];
    }
  }

  /** The words of a suffix, put back between the whitespace gaps they were cut from, give the suffix back. */
  lemma {:induction false} WordsFromHaveLayout(s: string, i: nat) returns (gaps: seq<string>)
    requires i <= |s|
    ensures Separated(gaps, WordsFrom(s, i)) && Interleave(gaps, WordsFrom(s, i)) == s[i..]
    ensures gaps[0] == s[i..WordStart(s, i)]
    decreases |s| - i
  {
    var a := WordStart(s, i);
    GapSlice(s, i, a);
    if a == |s| {
      gaps := [s[i..]];
    } else {
      var b := WordEnd(s, a);
      TokenSlice(s, a, b);
      var ws := WordsFrom(s, b);
      var rest := WordsFromHaveLayout(s, b);
      assert WordsFrom(s, i) == [s[a..b]] + ws;
      if ws != [] {
        assert b < |s| && WordStart(s, b) > b;
      }
      gaps := LayoutCons(s, i, a, b, rest, ws);
    }
  }

  /** One more gap and word in front of the layout of `s[b..]` lay out `s[i..]`. */
  lemma LayoutCons(s: string, i: nat, a: nat, b: nat, rest: seq<string>, ws: seq<string>) returns (gaps: seq<string>)
    requires i <= a < b <= |s| && IsGap(s[i..a]) && IsToken(s[a..b])
    requires Separated(rest, ws) && Interleave(rest, ws) == s[b..] && (ws != [] ==> rest[0] != [])
    ensures gaps == [s[i..a]] + rest
    ensures Separated(gaps, [s[a..b]] + ws) && Interleave(gaps, [s[a..b]] + ws) == s[i..]
  {
    SeparatedCons(s[i..a], s[a..b], rest, ws);
    gaps := [s[i..a]] + rest;
    assert s[i..] == s[i..a] + s[a..b] + s[b..];
  }

  /** `split_ascii_whitespace` cuts `s` into a layout: whitespace gaps around the words, non-empty between two words. */
  lemma WordsHaveLayout(s: string) returns (gaps: seq<string>)
    ensures Separated(gaps, Words(s)) && Interleave(gaps, Words(s)) == s
  {
    assert s[0..] == s;
    gaps := WordsFromHaveLayout(s, 0);
  }

  /** The gaps of `n` words joined by single spaces: one space between each two words, none around them. */
  function SingleSpaces(n: nat): (g: seq<string>)
    requires n >= 1
    ensures |g| == n + 1 && g[0] == "" && g[n] == ""
    ensures forall k | 0 < k < n :: g[k] == " "
  {
    [""] + seq(n - 1, _ => " ") + [""]
  }

  /** Joining tokens with single spaces lays them out between single-space gaps. */
  lemma {:induction false} JoinedLayout(words: seq<string>)
    requires |words| >= 1
    ensures JoinWith(words, ' ') == Interleave(SingleSpaces(|words|), words)
    decreases |words|
  {
    var n := |words|;
    var g := SingleSpaces(n);
    if n == 1 {
      assert Interleave(g[1..], words[1..]) == "";
    } else {
      var g' := SingleSpaces(n - 1);
      JoinedLayout(words[1..]);
      forall k | 0 <= k < n
        ensures g[1..][k] == ([" " + g'[0]] + g'[1..])[k]
      {
        if k == 0 {
          assert " " + g'[0] == " ";
        }
      }
      assert g[1..] == [" " + g'[0]] + g'[1..];
      InterleaveHead(" ", g', words[1..]);
    }
  }

  /** Text put in front of the first gap comes out in front. */
  lemma InterleaveHead(x: string, gaps: seq<string>, words: seq<string>)
    requires |gaps| == |words| + 1
    ensures Interleave([x + gaps[0]] + gaps[1..], words) == x + Interleave(gaps, words)
  {
    var l := [x + gaps[0]] + gaps[1..];
    assert l[1..] == gaps[1..];
  }

  /** Splitting tokens joined with single spaces gives the tokens back. */
  lemma WordsOfJoined(words: seq<string>)
    requires |words| >= 1 && forall k | 0 <= k < |words| :: IsToken(words[k])
    ensures Words(JoinWith(words, ' ')) == words
  {
    var g := SingleSpaces(|words|);
    forall k | 0 <= k < |g|
      ensures IsGap(g[k])
    {
      if 0 < k < |words| {
        assert g[k] == " ";
      }
    }
    assert Separated(g, words);
    JoinedLayout(words);
    WordsOfLayout(g, words);
  }

  // ---------------------------------------------------------------------------
  // shell_expand

  /** The arguments one piece contributes: a quoted piece verbatim, an unquoted one by its words. */
  function PieceArguments(piece: string, quoted: bool): seq<string> {
    if quoted then [piece] else if piece != "" then Words(piece) else []
  }

  /** The arguments of pieces that alternate unquoted, quoted, unquoted, ... */
  function Expanded(pieces: seq<string>): seq<string>
    decreases |pieces|
  {
    if pieces == [] then []
    else Expanded(pieces[..|pieces| - 1]) + PieceArguments(pieces[|pieces| - 1], (|pieces| - 1) % 2 == 1)
  }

  /** `shell_expand`: split on single quotes, keep quoted pieces whole, split the rest on whitespace. */
  method ShellExpand(cmd: string) returns (res: seq<string>)
    ensures res == Expanded(Split(cmd, '\''))
  {
    var pieces := Split(cmd, '\'');
    res := [];
    for i := 0 to |pieces|
      invariant res == Expanded(pieces[..i])
    {
      assert pieces[..i + 1][..i] == pieces[..i];
      if i % 2 == 1 {
        res := res + [pieces[i]];
      } else if pieces[i] != "" {
        res := res + Words(pieces[i]);
      }
    }
    assert pieces[..|pieces|] == pieces;
  }

  /** A command line without quotes is split exactly on whitespace. */
  lemma NoQuotesIsWords(cmd: string)
    requires '\'' !in cmd
    ensures Expanded(Split(cmd, '\'')) == Words(cmd)
  {
    SplitWithoutSeparator(cmd, '\'');
    assert [cmd][..0] == [];
  }

  /** Every argument is a quoted piece, or a non-empty run without whitespace. */
  lemma {:induction false} ArgumentsAreQuotedOrTokens(pieces: seq<string>)
    ensures forall t | t in Expanded(pieces) :: IsToken(t) || exists i | 0 <= i < |pieces| :: i % 2 == 1 && t == pieces[i]
    decreases |pieces|
  {
    if pieces != [] {
      var init := pieces[..|pieces| - 1];
      ArgumentsAreQuotedOrTokens(init);
      forall t | t in Expanded(pieces)
        ensures IsToken(t) || exists i | 0 <= i < |pieces| :: i % 2 == 1 && t == pieces[i]
      {
        if t in Expanded(init) {
          if !IsToken(t) {
            var i :| 0 <= i < |init| && i % 2 == 1 && t == init[i];
            assert t == pieces[i];
          }
        } else {
          assert t in PieceArguments(pieces[|pieces| - 1], (|pieces| - 1) % 2 == 1);
        }
      }
    }
  }

  /** Every quoted piece, even an empty one or one with spaces, is an argument of its own. */
  lemma {:induction false} QuotedPiecesKept(pieces: seq<string>, i: nat)
    requires i < |pieces| && i % 2 == 1
    ensures pieces[i] in Expanded(pieces)
    decreases |pieces|
  {
    var init := pieces[..|pieces| - 1];
    if i < |pieces| - 1 {
      QuotedPiecesKept(init, i);
    }
  }

  // ---------------------------------------------------------------------------
  // The directory and environment stacks

  /** What the helper's environment consists of: its two stacks and the process's own state. */
  datatype EnvState = EnvState(
    pushdStack: seq<Path>,
    pushEnvStack: seq<(string, Option<string>)>,
    vars: map<string, string>,
    processCwd: Path)

  /** The directory stack is never empty, and the process sits in its top directory. */
  predicate Coherent(s: EnvState) {
    s.pushdStack != [] && s.processCwd == s.pushdStack[|s.pushdStack| - 1]
  }

  function AfterPushd(s: EnvState, dir: Path): (s': EnvState)
    requires Coherent(s)
    ensures Coherent(s')
  {
    var d := Join(s.pushdStack[|s.pushdStack| - 1], dir);
    s.(pushdStack := s.pushdStack + [d], processCwd := d)
  }

  function AfterPopd(s: EnvState): (s': EnvState)
    requires |s.pushdStack| >= 2
    ensures Coherent(s')
  {
    var stack := s.pushdStack[..|s.pushdStack| - 1];
    s.(pushdStack := stack, processCwd := stack[|stack| - 1])
  }

  function AfterPushEnv(s: EnvState, name: string, value: string): EnvState {
    s.(pushEnvStack := s.pushEnvStack + [(name, if name in s.vars then Some(s.vars[name]) else None)],
       vars := s.vars[name := value])
  }

  function AfterPopEnv(s: EnvState): EnvState
    requires s.pushEnvStack != []
  {
    var (name, saved) := s.pushEnvStack[|s.pushEnvStack| - 1];
    s.(pushEnvStack := s.pushEnvStack[..|s.pushEnvStack| - 1],
       vars := match saved
         case None => s.vars - {name}
         case Some(v) => s.vars[name := v])
  }

  /** Entering a directory and leaving it again restores everything. */
  lemma PushdPopd(s: EnvState, dir: Path)
    requires Coherent(s)
    ensures AfterPopd(AfterPushd(s, dir)) == s
  {
    assert (s.pushdStack + [Join(s.pushdStack[|s.pushdStack| - 1], dir)])[..|s.pushdStack|] == s.pushdStack;
  }

  /** Setting a variable and popping the override restores its earlier value, or its absence. */
  lemma PushEnvPopEnv(s: EnvState, name: string, value: string)
    ensures AfterPopEnv(AfterPushEnv(s, name, value)) == s
  {
    var s' := AfterPopEnv(AfterPushEnv(s, name, value));
    assert (s.pushEnvStack + [(name, if name in s.vars then Some(s.vars[name]) else None)])[..|s.pushEnvStack|] == s.pushEnvStack;
    assert s'.vars == s.vars;
  }

  /** The thread's environment helper. */
  class Env {
    var pushdStack: seq<Path>
    var pushEnvStack: seq<(string, Option<string>)>
    var vars: map<string, string>     // the process environment
    var processCwd: Path              // the process working directory

    function State(): EnvState
      reads this
    {
      EnvState(pushdStack, pushEnvStack, vars, processCwd)
    }

    /** The helper starts from the process's current directory. */
    constructor (currentDir: Path, vars: map<string, string>)
      ensures State() == EnvState([currentDir], [], vars, currentDir) && Coherent(State())
    {
      pushdStack, pushEnvStack := [currentDir], [];
      this.vars, processCwd := vars, currentDir;
    }

    /** `cwd`: the top of the directory stack. */
    function Cwd(): (p: Path)
      requires pushdStack != []
      reads this
      ensures p in pushdStack
    {
      pushdStack[|pushdStack| - 1]
    }

    /** `pushd`: enter `dir`, taken relative to the current directory. */
    method Pushd(dir: Path)
      requires Coherent(State())
      modifies this
      ensures State() == AfterPushd(old(State()), dir)
      ensures Cwd() == Join(old(Cwd()), dir)
    {
      var d := Join(Cwd(), dir);
      pushdStack := pushdStack + [d];
      processCwd := Cwd();
    }

    /** `popd`: return to the previous directory; the starting directory is never popped. */
    method Popd()
      requires |pushdStack| >= 2
      modifies this
      ensures State() == AfterPopd(old(State()))
    {
      pushdStack := pushdStack[..|pushdStack| - 1];
      processCwd := Cwd();
    }

    /** `push_env`: set a variable, remembering its previous value. */
    method PushEnv(name: string, value: string)
      modifies this
      ensures State() == AfterPushEnv(old(State()), name, value)
    {
      var saved := if name in vars then Some(vars[name]) else None;
      pushEnvStack := pushEnvStack + [(name, saved)];
      vars := vars[name := value];
    }

    /** `pop_env`: undo the latest override, removing the variable if it was unset before. */
    method PopEnv()
      requires pushEnvStack != []
      modifies this
      ensures State() == AfterPopEnv(old(State()))
    {
      var (name, saved) := pushEnvStack[|pushEnvStack| - 1];
      pushEnvStack := pushEnvStack[..|pushEnvStack| - 1];
      match saved {
        case None => vars := vars - {name};
        case Some(v) => vars := vars[name := v];
      }
    }
  }
}
