/** Agents in the process table: titles of managed sessions and discovery of unmanaged ones. */
module Discover {
  import opened Common
  import opened ProcTree

  // ---------------------------------------------------------------- command lines

  /** The whitespace class of the pattern. */
  predicate IsSpace(c: char) {
    c == ' ' || c == '\t' || c == '\n' || c == '\r' || c == '\U{000C}'
  }

  const NAMES := ["claude", "codex", "opencode", "cortext"]

  /** A directory prefix without whitespace, possibly empty, ends at k. */
  predicate DirPrefix(cmd: string, k: nat)
    requires k <= |cmd|
  {
    k == 0 || (cmd[k - 1] == '/' && forall i :: 0 <= i < k ==> !IsSpace(cmd[i]))
  }

  predicate WordAt(cmd: string, k: nat, word: string) {
    k + |word| <= |cmd| && cmd[k..k + |word|] == word
  }

  /** One of the agent names as a whole word. */
  predicate NameAt(cmd: string, k: nat, name: string) {
    WordAt(cmd, k, name) && (k + |name| == |cmd| || IsSpace(cmd[k + |name|]))
  }

  predicate OllamaRunAt(cmd: string, k: nat) {
    WordAt(cmd, k, "ollama")
    && exists j :: k + 7 <= j < |cmd| - 3
         && (forall i :: k + 6 <= i < j ==> IsSpace(cmd[i]))
         && WordAt(cmd, j, "run") && IsSpace(cmd[j + 3])
  }

  predicate AnyNameAt(cmd: string, k: nat) {
    exists n :: 0 <= n < |NAMES| && NameAt(cmd, k, NAMES[n])
  }

  /** An agent invocation whose name starts at k. */
  predicate AgentAt(cmd: string, k: nat)
    requires k <= |cmd|
  {
    DirPrefix(cmd, k) && (OllamaRunAt(cmd, k) || AnyNameAt(cmd, k))
  }

  /** The command line matches the agent pattern. */
  predicate AgentCmd(cmd: string) {
    exists k :: 0 <= k <= |cmd| && AgentAt(cmd, k)
  }

  /** Everything before the first space character. */
  function FirstWord(cmd: string): (w: string)
    ensures w <= cmd && ' ' !in w
    ensures |w| < |cmd| ==> cmd[|w|] == ' '
  {
    if cmd == "" || cmd[0] == ' ' then "" else [cmd[0]] + FirstWord(cmd[1..])
  }

  /** Everything after the last slash. */
  function Base(w: string): (b: string)
    ensures |b| <= |w| && w[|w| - |b|..] == b && '/' !in b
    ensures |b| < |w| ==> w[|w| - |b| - 1] == '/'
  {
    if w == "" || w[|w| - 1] == '/' then ""
    else Base(w[..|w| - 1]) + [w[|w| - 1]]
  }

  function FirstWordBase(cmd: string): string {
    Base(FirstWord(cmd))
  }

  lemma FirstWordIs(cmd: string, n: nat)
    requires n <= |cmd| && (forall i :: 0 <= i < n ==> cmd[i] != ' ') && (n < |cmd| ==> cmd[n] == ' ')
    ensures FirstWord(cmd) == cmd[..n]
  {
    var w := FirstWord(cmd);
    assert |w| <= n;
  }

  lemma {:induction false} BaseIs(w: string, k: nat)
    requires k <= |w| && (k == 0 || w[k - 1] == '/') && forall i :: k <= i < |w| ==> w[i] != '/'
    ensures Base(w) == w[k..]
    decreases |w|
  {
    if k < |w| {
      var last := |w| - 1;
      BaseIs(w[..last], k);
      assert w[k..] == w[..last][k..] + [w[last]];
    }
  }

  predicate IsAgentName(word: string) {
    word in NAMES || word == "ollama"
  }

  /** The command names the agent `word` at k: after a directory prefix, before whitespace or the end. */
  predicate NamedAt(cmd: string, k: nat, word: string) {
    k <= |cmd| && DirPrefix(cmd, k) && NameAt(cmd, k, word) && IsAgentName(word)
  }

  /** The character after the name is a blank, or there is none. */
  predicate BlankAfter(cmd: string, k: nat, word: string) {
    k + |word| >= |cmd| || cmd[k + |word|] == ' '
  }

  predicate EndsInName(w: string, word: string) {
    |w| > |word| && w[|w| - |word|..] == word && w[|w| - |word| - 1] == '/'
  }

  /** Every matching command names an agent somewhere. */
  lemma MatchIsNamed(cmd: string) returns (k: nat, word: string)
    requires AgentCmd(cmd)
    ensures NamedAt(cmd, k, word)
  {
    k :| 0 <= k <= |cmd| && AgentAt(cmd, k);
    if OllamaRunAt(cmd, k) {
      var j :| k + 7 <= j < |cmd| - 3 && (forall i :: k + 6 <= i < j ==> IsSpace(cmd[i]));
      assert IsSpace(cmd[k + 6]);
      word := "ollama";
    } else {
      var n :| 0 <= n < |NAMES| && NameAt(cmd, k, NAMES[n]);
      word := NAMES[n];
    }
  }

  const BLANKS := {' ', '\t', '\n', '\r', '\U{000C}'}

  /** Empty, or free of whitespace and ending in a slash. */
  predicate IsDirectory(prefix: string) {
    prefix == "" || (prefix[|prefix| - 1] == '/' && forall c :: c in prefix ==> c !in BLANKS)
  }

  /** A directory, an agent's name, then whitespace or the end. */
  ghost predicate Spells(cmd: string, prefix: string, name: string, rest: string) {
    && cmd == prefix + name + rest && IsDirectory(prefix)
    && name in {"claude", "codex", "opencode", "cortext"} && (rest == "" || rest[0] in BLANKS)
  }

  /** A directory, `ollama`, whitespace, `run`, whitespace. */
  ghost predicate SpellsRun(cmd: string, prefix: string, gap: string, rest: string) {
    && cmd == prefix + "ollama" + gap + "run" + rest && IsDirectory(prefix)
    && gap != "" && (forall c :: c in gap ==> c in BLANKS) && rest != "" && rest[0] in BLANKS
  }

  lemma DirectoryIff(cmd: string, k: nat)
    requires k <= |cmd|
    ensures DirPrefix(cmd, k) <==> IsDirectory(cmd[..k])
  {
    if k > 0 {
      assert cmd[..k][k - 1] == cmd[k - 1];
      assert forall i :: 0 <= i < k ==> cmd[..k][i] == cmd[i] && cmd[i] in cmd[..k];
    }
  }

  lemma SpelledMatches(cmd: string, prefix: string, name: string, rest: string)
    requires Spells(cmd, prefix, name, rest)
    ensures AgentCmd(cmd)
  {
    var k := |prefix|;
    assert cmd[..k] == prefix && cmd[k..k + |name|] == name;
    DirectoryIff(cmd, k);
    assert rest != "" ==> cmd[k + |name|] == rest[0];
    var n := if name == "claude" then 0 else if name == "codex" then 1 else if name == "opencode" then 2 else 3;
    assert NAMES[n] == name && NameAt(cmd, k, NAMES[n]);
    assert AgentAt(cmd, k);
  }

  lemma SpelledRunMatches(cmd: string, prefix: string, gap: string, rest: string)
    requires SpellsRun(cmd, prefix, gap, rest)
    ensures AgentCmd(cmd)
  {
    var k := |prefix|;
    var j := k + 6 + |gap|;
    assert cmd[..k] == prefix && cmd[k..k + 6] == "ollama" && cmd[j..j + 3] == "run" && cmd[j + 3] == rest[0];
    forall i | k + 6 <= i < j
      ensures IsSpace(cmd[i])
    {
      assert cmd[i] == gap[i - k - 6] && gap[i - k - 6] in gap;
    }
    DirectoryIff(cmd, k);
    assert WordAt(cmd, k, "ollama") && WordAt(cmd, j, "run") && IsSpace(cmd[j + 3]) && k + 7 <= j < |cmd| - 3;
    assert AgentAt(cmd, k);
  }

  lemma NamedIsSpelled(cmd: string, k: nat, name: string)
    requires k <= |cmd| && DirPrefix(cmd, k) && NameAt(cmd, k, name) && name in NAMES
    ensures Spells(cmd, cmd[..k], name, cmd[k + |name|..])
  {
    DirectoryIff(cmd, k);
    assert cmd == cmd[..k] + cmd[k..k + |name|] + cmd[k + |name|..];
  }

  lemma RunIsSpelled(cmd: string, k: nat) returns (gap: string, rest: string)
    requires k <= |cmd| && DirPrefix(cmd, k) && OllamaRunAt(cmd, k)
    ensures SpellsRun(cmd, cmd[..k], gap, rest)
  {
    var j :| k + 7 <= j < |cmd| - 3 && (forall i :: k + 6 <= i < j ==> IsSpace(cmd[i]))
             && WordAt(cmd, j, "run") && IsSpace(cmd[j + 3]);
    gap, rest := cmd[k + 6..j], cmd[j + 3..];
    DirectoryIff(cmd, k);
    CutInFive(cmd, k, k + 6, j, j + 3);
    GapIsBlank(cmd, k + 6, j);
  }

  lemma CutInFive(s: string, a: nat, b: nat, c: nat, d: nat)
    requires a <= b <= c <= d <= |s|
    ensures s == s[..a] + s[a..b] + s[b..c] + s[c..d] + s[d..]
  {
    SplitAt(s, d);
    SplitAt(s[..d], c);
    SplitAt(s[..c], b);
    SplitAt(s[..b], a);
    assert s[..d][..c] == s[..c] && s[..c][..b] == s[..b] && s[..b][..a] == s[..a];
    assert s[..d][c..] == s[c..d] && s[..c][b..] == s[b..c] && s[..b][a..] == s[a..b];
  }

  lemma GapIsBlank(s: string, a: nat, b: nat)
    requires a <= b <= |s| && forall i :: a <= i < b ==> IsSpace(s[i])
    ensures forall c :: c in s[a..b] ==> c in BLANKS
  {
    assert forall i :: 0 <= i < b - a ==> s[a..b][i] == s[a + i];
  }

  /** A command line matches if and only if it is spelled in one of the two ways. */
  lemma MatchIff(cmd: string)
    ensures AgentCmd(cmd)
       <==> ((exists prefix, name, rest :: Spells(cmd, prefix, name, rest))
             || exists prefix, gap, rest :: SpellsRun(cmd, prefix, gap, rest))
  {
    if AgentCmd(cmd) {
      var k :| 0 <= k <= |cmd| && AgentAt(cmd, k);
      if OllamaRunAt(cmd, k) {
        var gap, rest := RunIsSpelled(cmd, k);
      } else {
        var n :| 0 <= n < |NAMES| && NameAt(cmd, k, NAMES[n]);
        NamedIsSpelled(cmd, k, NAMES[n]);
      }
    }
    if prefix, name, rest :| Spells(cmd, prefix, name, rest) {
      SpelledMatches(cmd, prefix, name, rest);
    }
    if prefix, gap, rest :| SpellsRun(cmd, prefix, gap, rest) {
      SpelledRunMatches(cmd, prefix, gap, rest);
    }
  }

  /**
   The title is the agent's name if and only if a blank or the end follows the name. Other
   whitespace stays in the first word; then only a further path ending in the name gives it back.
   */
  lemma TitleIsNameIff(cmd: string, k: nat, word: string)
    requires NamedAt(cmd, k, word)
    ensures FirstWordBase(cmd) == word <==> BlankAfter(cmd, k, word) || EndsInName(FirstWord(cmd), word)
  {
    if BlankAfter(cmd, k, word) {
      NameIsPlain(word);
      TitleOfWord(cmd, k, word);
    } else {
      BlankFree(cmd, k, word);
      NameIsPlain(word);
      BaseEndsIff(FirstWord(cmd), word);
    }
  }

  lemma BaseEndsIff(w: string, word: string)
    requires |w| > |word| && forall i :: 0 <= i < |word| ==> word[i] != '/'
    ensures Base(w) == word <==> EndsInName(w, word)
  {
    if EndsInName(w, word) {
      var n := |w| - |word|;
      assert forall i :: n <= i < |w| ==> w[i] == w[n..][i - n];
      BaseIs(w, n);
    }
  }

  /** Up to and including the character after the name, the command has no blank. */
  lemma BlankFree(cmd: string, k: nat, word: string)
    requires NamedAt(cmd, k, word) && !BlankAfter(cmd, k, word)
    ensures |FirstWord(cmd)| > k + |word|
  {
    NameIsPlain(word);
    var n := k + |word|;
    forall i | 0 <= i <= n
      ensures cmd[i] != ' '
    {
      if k <= i < n {
        assert cmd[i] == cmd[k..n][i - k];
      }
    }
  }

  /** When blanks are the only whitespace after an agent's name, the title is one of the five known agents. */
  lemma TitleIsKnown(cmd: string)
    requires AgentCmd(cmd)
    requires forall k: nat, word :: NamedAt(cmd, k, word) ==> BlankAfter(cmd, k, word)
    ensures IsAgentName(FirstWordBase(cmd))
  {
    var k, word := MatchIsNamed(cmd);
    TitleIsNameIff(cmd, k, word);
  }

  const TABBED := "claude\tx y"

  lemma TabbedMatches()
    ensures AgentCmd(TABBED)
  {
    assert NAMES[0] == "claude";
    assert TABBED[0..6] == "claude";
    assert NameAt(TABBED, 0, NAMES[0]) && AgentAt(TABBED, 0);
  }

  /** A tab after the name stays in the title. */
  lemma TabStaysInTitle()
    ensures AgentCmd(TABBED) && FirstWordBase(TABBED) == "claude\tx" && !IsAgentName(FirstWordBase(TABBED))
  {
    TabbedMatches();
    TabbedWord();
    NotAnAgent("claude\tx");
  }

  lemma TabbedWord()
    ensures FirstWordBase(TABBED) == "claude\tx"
  {
    var w := "claude\tx";
    assert TABBED == w + " y";
    PlainWord(w, " y");
  }

  lemma PlainWord(w: string, rest: string)
    requires rest != "" && rest[0] == ' ' && ' ' !in w && '/' !in w
    ensures FirstWordBase(w + rest) == w
  {
    FirstWordIs(w + rest, |w|);
    assert (w + rest)[..|w|] == w;
    BaseIs(w, 0);
    assert w[0..] == w;
  }

  lemma NotAnAgent(s: string)
    requires |s| == 8 && s[0] == 'c'
    ensures !IsAgentName(s)
  {
  }

  lemma NameIsPlain(word: string)
    requires IsAgentName(word)
    ensures forall i :: 0 <= i < |word| ==> word[i] != ' ' && word[i] != '/'
  {
    if word in NAMES {
      var n :| 0 <= n < |NAMES| && NAMES[n] == word;
      PlainName(n);
    }
  }

  lemma PlainName(n: nat)
    requires n < |NAMES|
    ensures forall i :: 0 <= i < |NAMES[n]| ==> NAMES[n][i] != ' ' && NAMES[n][i] != '/'
  {
    if n == 0 {
      assert NAMES[n] == "claude";
    } else if n == 1 {
      assert NAMES[n] == "codex";
    } else if n == 2 {
      assert NAMES[n] == "opencode";
    } else {
      assert NAMES[n] == "cortext";
    }
  }

  lemma TitleOfWord(cmd: string, k: nat, word: string)
    requires k <= |cmd| && DirPrefix(cmd, k) && WordAt(cmd, k, word)
    requires forall i :: 0 <= i < |word| ==> word[i] != ' ' && word[i] != '/'
    requires k + |word| == |cmd| || cmd[k + |word|] == ' '
    ensures FirstWordBase(cmd) == word
  {
    var n := k + |word|;
    forall i | 0 <= i < n
      ensures cmd[i] != ' ' && (i >= k ==> cmd[i] != '/')
    {
      if i >= k {
        assert cmd[i] == cmd[k..n][i - k];
      }
    }
    FirstWordIs(cmd, n);
    BaseIs(cmd[..n], k);
    assert cmd[..n][k..] == word;
  }

  /** The first word is empty or ends in a slash. */
  predicate NoTitle(cmd: string) {
    var w := FirstWord(cmd);
    w == "" || w[|w| - 1] == '/'
  }

  /** A matching command line has an empty title exactly when its first word ends in a slash. */
  lemma TitleEmptyIff(cmd: string)
    ensures FirstWordBase(cmd) == "" <==> NoTitle(cmd)
  {
  }

  /** Such command lines exist: a tab ends the agent's name but not the first word. */
  lemma MatchingWithEmptyTitle()
    ensures AgentCmd("claude\t/ x") && FirstWordBase("claude\t/ x") == ""
  {
    var cmd := "claude\t/ x";
    assert NAMES[0] == "claude";
    assert cmd[0..6] == "claude";
    assert NameAt(cmd, 0, NAMES[0]) && AgentAt(cmd, 0);
    FirstWordIs(cmd, 8);
    assert cmd[..8][7] == '/';
  }

  // ---------------------------------------------------------------- searches

  function CmdOf(t: Tree, p: Pid): string {
    if p in t.cmd then t.cmd[p] else ""
  }

  /** p runs an agent strictly below root. */
  ghost predicate AgentBelow(t: Tree, root: Pid, p: Pid) {
    p != root && Reachable(t, root, p) && AgentCmd(CmdOf(t, p))
  }

  ghost predicate NoDeeper(t: Tree, root: Pid, p: Pid, q: Pid) {
    forall m, n :: Distance(t, root, p, m) && Distance(t, root, q, n) ==> m <= n
  }

  /** The first agent in search order is a shallowest one. */
  lemma FirstIsShallowest(t: Tree, root: Pid, pids: seq<Pid>, depth: seq<nat>, i: nat)
    requires i < |pids| == |depth| && Sorted(depth)
    requires forall k :: 0 <= k < |pids| ==> Distance(t, root, pids[k], depth[k])
    requires forall p :: p in pids <==> p != root && Reachable(t, root, p)
    requires forall k :: 0 <= k < i ==> !AgentCmd(CmdOf(t, pids[k]))
    requires AgentCmd(CmdOf(t, pids[i]))
    ensures AgentBelow(t, root, pids[i])
    ensures forall q :: AgentBelow(t, root, q) ==> NoDeeper(t, root, pids[i], q)
  {
    var p := pids[i];
    assert p in pids;
    forall q | AgentBelow(t, root, q)
      ensures NoDeeper(t, root, p, q)
    {
      var k :| 0 <= k < |pids| && pids[k] == q;
      assert depth[i] <= depth[k];
    }
  }

  ghost predicate Shallowest(t: Tree, root: Pid, p: Pid) {
    AgentBelow(t, root, p) && forall q :: AgentBelow(t, root, q) ==> NoDeeper(t, root, p, q)
  }

  /** The first of the pids that runs an agent. */
  function FirstAgent(t: Tree, pids: seq<Pid>): (p: Option<Pid>)
    ensures p.None? <==> forall k :: 0 <= k < |pids| ==> !AgentCmd(CmdOf(t, pids[k]))
  {
    if pids == [] then None
    else if AgentCmd(CmdOf(t, pids[0])) then Some(pids[0])
    else
      assert pids == [pids[0]] + pids[1..];
      FirstAgent(t, pids[1..])
  }

  lemma {:induction false} FirstAgentAt(t: Tree, pids: seq<Pid>, i: nat)
    requires i < |pids| && AgentCmd(CmdOf(t, pids[i]))
    requires forall k :: 0 <= k < i ==> !AgentCmd(CmdOf(t, pids[k]))
    ensures FirstAgent(t, pids) == Some(pids[i])
    decreases i
  {
    if i > 0 {
      FirstAgentAt(t, pids[1..], i - 1);
    }
  }

  /**
   The title of the first agent the search meets, which is a shallowest one; empty exactly if
   there is none, or if that agent's command has an empty title.
   */
  method AgentUnder(t: Tree, root: Pid) returns (title: string)
    ensures var first := FirstAgent(t, Listing(t, root));
            && (first.None? <==> forall p :: !AgentBelow(t, root, p))
            && (first.Some? ==> Shallowest(t, root, first.value) && title == FirstWordBase(CmdOf(t, first.value)))
            && (title == "" <==> first.None? || NoTitle(CmdOf(t, first.value)))
  {
    var pids, depth := Descendants(t, root);
    for i := 0 to |pids|
      invariant forall k :: 0 <= k < i ==> !AgentCmd(CmdOf(t, pids[k]))
    {
      if AgentCmd(CmdOf(t, pids[i])) {
        FirstIsShallowest(t, root, pids, depth, i);
        FirstAgentAt(t, pids, i);
        TitleEmptyIff(CmdOf(t, pids[i]));
        assert Shallowest(t, root, pids[i]);
        return FirstWordBase(CmdOf(t, pids[i]));
      }
    }
    forall p
      ensures !AgentBelow(t, root, p)
    {
      assert p in pids ==> exists k :: 0 <= k < |pids| && pids[k] == p;
    }
    return "";
  }

  /** p is a started session's process or runs under one; 0 stands for a session not yet started. */
  ghost predicate Owned(t: Tree, sessions: set<Pid>, p: Pid) {
    exists s :: s in sessions && s != 0 && Reachable(t, s, p)
  }

  /** The agent processes the daemon does not own. */
  method UnmanagedSessions(t: Tree, sessions: set<Pid>) returns (found: set<Pid>)
    ensures forall p :: p in found <==> p in t.cmd && AgentCmd(t.cmd[p]) && !Owned(t, sessions, p)
  {
    var owned := {};
    var rest := sessions;
    while rest != {}
      invariant rest <= sessions
      invariant forall p :: p in owned <==> Owned(t, sessions - rest, p)
      decreases rest
    {
      var s :| s in rest;
      ghost var before := sessions - rest;
      rest := rest - {s};
      assert sessions - rest == before + {s};
      OwnedWith(t, before, s);
      if s != 0 {
        var below, depth := Descendants(t, s);
        RootReachable(t, s);
        var subtree := {s} + (set c | c in below);
        assert forall p :: p in subtree <==> Reachable(t, s, p);
        owned := owned + subtree;
      }
    }
    assert sessions - rest == sessions;
    found := {};
    var pids := t.cmd.Keys;
    while pids != {}
      invariant pids <= t.cmd.Keys
      invariant forall p :: p in found <==> p in t.cmd && p !in pids && AgentCmd(t.cmd[p]) && !Owned(t, sessions, p)
      decreases pids
    {
      var p :| p in pids;
      pids := pids - {p};
      if p !in owned && AgentCmd(t.cmd[p]) {
        found := found + {p};
      }
    }
  }

  lemma RootReachable(t: Tree, root: Pid)
    ensures Reachable(t, root, root)
  {
    WalkHere(t, root);
    assert Walk(t, root, root, 0);
  }

  lemma OwnedWith(t: Tree, sessions: set<Pid>, s: Pid)
    ensures forall p :: Owned(t, sessions + {s}, p) <==> Owned(t, sessions, p) || (s != 0 && Reachable(t, s, p))
  {
  }
}
