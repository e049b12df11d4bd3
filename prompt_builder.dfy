/** Prompt clean-up, placeholder substitution and user-context decoration. */
module PromptBuilder {
  import opened Common
  import opened Strings

  // ---------------------------------------------------------------------------
  // optimizePrompt
  // ---------------------------------------------------------------------------

  /** `s.replace(/\s+/g, ' ')`: every maximal run of whitespace becomes one space. */
  function CollapseWhitespace(s: string): (r: string)
    ensures |r| <= |s|
    ensures (r == []) <==> (s == [])
    ensures s != [] ==> (IsWhitespace(r[0]) <==> IsWhitespace(s[0]))
    ensures Normal(r)
    decreases |s|
  {
    if s == [] then []
    else if IsWhitespace(s[0]) then
      var rest := CollapseWhitespace(TrimStart(s[1..]));
      NormalCons(' ', rest);
      [' '] + rest
    else
      var rest := CollapseWhitespace(s[1..]);
      NormalCons(s[0], rest);
      [s[0]] + rest
  }

  /** The characters of a string that are not whitespace, in order. */
  function Printed(s: string): (r: string)
    ensures |r| <= |s|
    ensures forall i :: 0 <= i < |r| ==> !IsWhitespace(r[i])
  {
    if s == [] then [] else (if IsWhitespace(s[0]) then [] else [s[0]]) + Printed(s[1..])
  }

  /** Collapsing whitespace keeps every other character, in order. */
  lemma {:induction false} CollapseKeepsText(s: string)
    ensures Printed(CollapseWhitespace(s)) == Printed(s)
    decreases |s|
  {
    if s != [] {
      if IsWhitespace(s[0]) {
        var t := TrimStart(s[1..]);
        CollapseKeepsText(t);
        TrimStartKeepsText(s[1..]);
        assert CollapseWhitespace(s) == [' '] + CollapseWhitespace(t);
        assert ([' '] + CollapseWhitespace(t))[1..] == CollapseWhitespace(t);
      } else {
        CollapseKeepsText(s[1..]);
        assert CollapseWhitespace(s) == [s[0]] + CollapseWhitespace(s[1..]);
        assert ([s[0]] + CollapseWhitespace(s[1..]))[1..] == CollapseWhitespace(s[1..]);
      }
    }
  }

  /** A run of whitespace between two words becomes exactly one space. */
  lemma {:induction false} CollapseRun(x: string, w: string, y: string)
    requires x == [] || !IsWhitespace(x[|x| - 1])
    requires w != [] && forall i :: 0 <= i < |w| ==> IsWhitespace(w[i])
    requires y == [] || !IsWhitespace(y[0])
    ensures CollapseWhitespace(x + (w + y)) == CollapseWhitespace(x) + [' '] + CollapseWhitespace(y)
    decreases |x|
  {
    if x == [] {
      assert x + (w + y) == w + y;
      CollapseRunEmpty(w, y);
    } else if IsWhitespace(x[0]) {
      var t := TrimStart(x[1..]);
      TrimStartKeepsLast(x[1..]);
      CollapseRun(t, w, y);
      CollapseRunSpace(x, w + y);
      Regroup(' ', CollapseWhitespace(t), CollapseWhitespace(y));
    } else {
      CollapseRun(x[1..], w, y);
      CollapseRunChar(x, w + y);
      Regroup(x[0], CollapseWhitespace(x[1..]), CollapseWhitespace(y));
    }
  }

  lemma Regroup(c: char, a: string, b: string)
    ensures [c] + (a + [' '] + b) == ([c] + a) + [' '] + b
  {
  }

  /** Trimming the front of a string that ends in a word keeps that word's last character. */
  lemma TrimStartKeepsLast(s: string)
    requires s != [] && !IsWhitespace(s[|s| - 1])
    ensures TrimStart(s) != [] && TrimStart(s)[|TrimStart(s)| - 1] == s[|s| - 1]
  {
  }

  lemma CollapseRunEmpty(w: string, y: string)
    requires w != [] && forall i :: 0 <= i < |w| ==> IsWhitespace(w[i])
    requires y == [] || !IsWhitespace(y[0])
    ensures CollapseWhitespace(w + y) == [' '] + CollapseWhitespace(y)
  {
    assert (w + y)[1..] == w[1..] + y;
    CollapseSpace(w + y);
    TrimStartRun(w[1..], y);
  }

  /** Unfolding the collapse of `x + v` at a leading whitespace of `x`. */
  lemma CollapseRunSpace(x: string, v: string)
    requires x != [] && IsWhitespace(x[0]) && !IsWhitespace(x[|x| - 1])
    ensures CollapseWhitespace(x) == [' '] + CollapseWhitespace(TrimStart(x[1..]))
    ensures CollapseWhitespace(x + v) == [' '] + CollapseWhitespace(TrimStart(x[1..]) + v)
  {
    assert (x + v)[1..] == x[1..] + v;
    CollapseSpace(x + v);
    CollapseSpace(x);
    TrimStartPrefix(x[1..], v);
  }

  /** Unfolding the collapse of `x + v` at a leading non-whitespace of `x`. */
  lemma CollapseRunChar(x: string, v: string)
    requires x != [] && !IsWhitespace(x[0])
    ensures CollapseWhitespace(x) == [x[0]] + CollapseWhitespace(x[1..])
    ensures CollapseWhitespace(x + v) == [x[0]] + CollapseWhitespace(x[1..] + v)
  {
    assert (x + v)[1..] == x[1..] + v;
    CollapseChar(x + v);
    CollapseChar(x);
  }

  lemma CollapseSpace(s: string)
    requires s != [] && IsWhitespace(s[0])
    ensures CollapseWhitespace(s) == [' '] + CollapseWhitespace(TrimStart(s[1..]))
  {
  }

  lemma CollapseChar(s: string)
    requires s != [] && !IsWhitespace(s[0])
    ensures CollapseWhitespace(s) == [s[0]] + CollapseWhitespace(s[1..])
  {
  }

  /** Leading whitespace followed by a word or nothing is dropped entirely. */
  lemma {:induction false} TrimStartRun(w: string, y: string)
    requires forall i :: 0 <= i < |w| ==> IsWhitespace(w[i])
    requires y == [] || !IsWhitespace(y[0])
    ensures TrimStart(w + y) == y
    decreases |w|
  {
    if w == [] {
      assert w + y == y;
    } else {
      assert (w + y)[1..] == w[1..] + y;
      TrimStartRun(w[1..], y);
    }
  }

  /** Trimming the front of a string that is not all whitespace ignores what follows it. */
  lemma {:induction false} TrimStartPrefix(a: string, b: string)
    requires TrimStart(a) != []
    ensures TrimStart(a + b) == TrimStart(a) + b
    decreases |a|
  {
    if IsWhitespace(a[0]) {
      assert (a + b)[1..] == a[1..] + b;
      TrimStartPrefix(a[1..], b);
    }
  }

  /** Dropping leading whitespace drops no other character. */
  lemma {:induction false} TrimStartKeepsText(s: string)
    ensures Printed(TrimStart(s)) == Printed(s)
    decreases |s|
  {
    if s != [] && IsWhitespace(s[0]) {
      TrimStartKeepsText(s[1..]);
    }
  }

  /** A character put in front of a normal string keeps it normal when it is a plain
      space followed by no whitespace, or not whitespace at all. */
  lemma NormalCons(c: char, rest: string)
    requires Normal(rest)
    requires IsWhitespace(c) ==> c == ' ' && (rest != [] ==> !IsWhitespace(rest[0]))
    ensures Normal([c] + rest)
  {
    var r := [c] + rest;
    forall i | 1 <= i < |r|
      ensures r[i] == rest[i - 1]
    {
    }
  }

  /** Whitespace only as single spaces: no other whitespace character and no two
      whitespace characters side by side. */
  ghost predicate Normal(s: string) {
    && (forall i :: 0 <= i < |s| && IsWhitespace(s[i]) ==> s[i] == ' ')
    && (forall i :: 0 <= i < |s| - 1 ==> !(IsWhitespace(s[i]) && IsWhitespace(s[i + 1])))
  }

  /** Neither starts nor ends with whitespace. */
  ghost predicate Trimmed(s: string) {
    s != [] ==> !IsWhitespace(s[0]) && !IsWhitespace(s[|s| - 1])
  }

  /** Drops a leading run of newlines. */
  function DropNewlines(s: string): (r: string)
    ensures |r| <= |s| && r == s[|s| - |r|..]
  {
    if s != [] && s[0] == '\n' then DropNewlines(s[1..]) else s
  }

  /** `s.replace(/\n{3,}/g, '\n\n')`. */
  function SqueezeNewlines(s: string): string
    decreases |s|
  {
    if s == [] then []
    else if |s| >= 3 && s[0] == '\n' && s[1] == '\n' && s[2] == '\n' then "\n\n" + SqueezeNewlines(DropNewlines(s))
    else [s[0]] + SqueezeNewlines(s[1..])
  }

  /** `optimizePrompt`. */
  function OptimizePrompt(prompt: string): string {
    SqueezeNewlines(Trim(CollapseWhitespace(prompt)))
  }

  lemma {:induction false} NormalSlice(s: string, i: int, j: int)
    requires Normal(s) && 0 <= i <= j <= |s|
    ensures Normal(s[i..j])
  {
    var t := s[i..j];
    forall k | 0 <= k < |t| && IsWhitespace(t[k]) ensures t[k] == ' ' {
      assert t[k] == s[i + k];
    }
    forall k | 0 <= k < |t| - 1 ensures !(IsWhitespace(t[k]) && IsWhitespace(t[k + 1])) {
      assert t[k] == s[i + k] && t[k + 1] == s[i + k + 1];
    }
  }

  lemma TrimKeepsNormal(s: string)
    requires Normal(s)
    ensures Normal(Trim(s)) && Trimmed(Trim(s))
  {
    var a := TrimStart(s);
    NormalSlice(s, |s| - |a|, |s|);
    TrimEndKeepsNormal(a);
  }

  lemma TrimEndKeepsNormal(a: string)
    requires Normal(a) && (a != [] ==> !IsWhitespace(a[0]))
    ensures Normal(TrimEnd(a)) && Trimmed(TrimEnd(a))
  {
    var b := TrimEnd(a);
    NormalSlice(a, 0, |b|);
    if b != [] {
      assert b[0] == a[0];
    }
  }

  /** On a string without newlines the `\n{3,}` replacement changes nothing. */
  lemma {:induction false} SqueezeWithoutNewlines(s: string)
    requires forall i :: 0 <= i < |s| ==> s[i] != '\n'
    ensures SqueezeNewlines(s) == s
  {
    if s != [] {
      SqueezeWithoutNewlines(s[1..]);
    }
  }

  /** A normal string has no newline, since its only whitespace is the plain space. */
  lemma NormalHasNoNewline(s: string)
    requires Normal(s)
    ensures forall i :: 0 <= i < |s| ==> s[i] != '\n'
  {
    forall i | 0 <= i < |s| ensures s[i] != '\n' {
      if s[i] == '\n' {
        assert IsWhitespace(s[i]);
      }
    }
  }

  /** The output of `optimizePrompt` has no leading or trailing whitespace, no two
      adjacent whitespace characters and no newline: it is the trimmed collapse, and
      the `\n{3,}` step never fires. */
  lemma OptimizePromptShape(prompt: string)
    ensures OptimizePrompt(prompt) == Trim(CollapseWhitespace(prompt))
    ensures Normal(OptimizePrompt(prompt)) && Trimmed(OptimizePrompt(prompt))
    ensures forall i :: 0 <= i < |OptimizePrompt(prompt)| ==> OptimizePrompt(prompt)[i] != '\n'
  {
    var c := CollapseWhitespace(prompt);
    TrimKeepsNormal(c);
    NormalHasNoNewline(Trim(c));
    SqueezeWithoutNewlines(Trim(c));
  }

  /** Collapsing a normal string changes nothing. */
  lemma {:induction false} CollapseNormal(s: string)
    requires Normal(s)
    ensures CollapseWhitespace(s) == s
    decreases |s|
  {
    if s != [] {
      NormalSlice(s, 1, |s|);
      CollapseNormal(s[1..]);
      if IsWhitespace(s[0]) {
        assert s[0] == ' ';
        assert s[1..] == [] || !IsWhitespace(s[1]);
        assert TrimStart(s[1..]) == s[1..];
        assert CollapseWhitespace(s) == " " + CollapseWhitespace(s[1..]);
      } else {
        assert CollapseWhitespace(s) == [s[0]] + CollapseWhitespace(s[1..]);
      }
      assert s == [s[0]] + s[1..];
    }
  }

  lemma TrimTrimmed(s: string)
    requires Trimmed(s)
    ensures Trim(s) == s
  {
  }

  /** `optimizePrompt` is idempotent. */
  lemma OptimizePromptIdempotent(prompt: string)
    ensures OptimizePrompt(OptimizePrompt(prompt)) == OptimizePrompt(prompt)
  {
    var o := OptimizePrompt(prompt);
    OptimizePromptShape(prompt);
    CollapseNormal(o);
    TrimTrimmed(o);
    OptimizePromptShape(o);
  }

  // ---------------------------------------------------------------------------
  // buildPrompt
  // ---------------------------------------------------------------------------

  /** A template variable: `string | number | undefined`. */
  datatype Value = Str(s: string) | Num(n: int) | Undefined

  /** `value !== undefined ? String(value) : ''`. */
  function Render(v: Value): (r: string)
    ensures v.Undefined? ==> r == ""
    ensures v.Str? ==> r == v.s
  {
    match v
    case Str(s) => s
    case Num(n) => IntToString(n)
    case Undefined => ""
  }

  function Placeholder(key: string): (p: string)
    ensures |p| == |key| + 2 && p[0] == '{' && p[|p| - 1] == '}'
  {
    "{" + key + "}"
  }

  /** `s.replace(new RegExp(pat, 'g'), rep)` with `pat` taken literally: a left-to-right
      scan that replaces each non-overlapping occurrence and never rescans what it inserted. */
  function ReplaceAll(s: string, pat: string, rep: string): string
    requires |pat| > 0
    decreases |s|
  {
    if |s| < |pat| then s
    else if s[..|pat|] == pat then rep + ReplaceAll(s[|pat|..], pat, rep)
    else [s[0]] + ReplaceAll(s[1..], pat, rep)
  }

  /** A string without the pattern is left alone. */
  lemma {:induction false} ReplaceAllAbsent(s: string, pat: string, rep: string)
    requires |pat| > 0 && !Contains(s, pat)
    ensures ReplaceAll(s, pat, rep) == s
    decreases |s|
  {
    if |s| >= |pat| {
      assert !OccursAt(s, pat, 0);
      assert s[..|pat|] != pat;
      if Contains(s[1..], pat) {
        var i :| 0 <= i <= |s[1..]| - |pat| && OccursAt(s[1..], pat, i);
        assert OccursAt(s, pat, i + 1);
      }
      ReplaceAllAbsent(s[1..], pat, rep);
    }
  }

  /** Moving one character along `s`. */
  lemma OccursShift(s: string, pat: string)
    requires s != []
    ensures forall j :: 1 <= j ==> (OccursAt(s, pat, j) <==> OccursAt(s[1..], pat, j - 1))
  {
    forall j | 1 <= j ensures OccursAt(s, pat, j) <==> OccursAt(s[1..], pat, j - 1) {
      if j + |pat| <= |s| {
        assert s[1..][j - 1..j - 1 + |pat|] == s[j..j + |pat|];
      }
    }
  }

  /** The first occurrence of `pat` in `s`, if any. */
  function FirstOccurrence(s: string, pat: string): Option<nat>
    requires |pat| > 0
    decreases |s|
  {
    if |s| < |pat| then None
    else if s[..|pat|] == pat then Some(0)
    else
      match FirstOccurrence(s[1..], pat)
      case None => None
      case Some(i) => Some(i + 1)
  }

  /** `FirstOccurrence` finds the leftmost occurrence, and finds one whenever there is one. */
  lemma {:induction false} FirstOccurrenceSpec(s: string, pat: string)
    requires |pat| > 0
    ensures var r := FirstOccurrence(s, pat);
      && (r.Some? ==> OccursAt(s, pat, r.value) && forall j :: 0 <= j < r.value ==> !OccursAt(s, pat, j))
      && (r.None? <==> !Contains(s, pat))
    decreases |s|
  {
    if |s| >= |pat| && s[..|pat|] != pat {
      FirstOccurrenceSpec(s[1..], pat);
      OccursShift(s, pat);
      assert !OccursAt(s, pat, 0);
      if Contains(s, pat) {
        var j :| 0 <= j <= |s| - |pat| && OccursAt(s, pat, j);
        assert OccursAt(s[1..], pat, j - 1);
      }
    } else if |s| >= |pat| {
      assert OccursAt(s, pat, 0);
    }
  }

  lemma ReplaceAllUnfold(s: string, pat: string, rep: string)
    requires |pat| > 0 && |s| >= |pat|
    ensures s[..|pat|] == pat ==> ReplaceAll(s, pat, rep) == rep + ReplaceAll(s[|pat|..], pat, rep)
    ensures s[..|pat|] != pat ==> ReplaceAll(s, pat, rep) == [s[0]] + ReplaceAll(s[1..], pat, rep)
  {
  }

  /** The scan keeps everything before the first occurrence, replaces that occurrence and
      carries on after it: together with `ReplaceAllAbsent` this pins the result down. */
  lemma {:induction false} ReplaceAllAtFirst(s: string, pat: string, rep: string, i: nat)
    requires |pat| > 0 && FirstOccurrence(s, pat) == Some(i) && i + |pat| <= |s|
    ensures ReplaceAll(s, pat, rep) == s[..i] + rep + ReplaceAll(s[i + |pat|..], pat, rep)
    decreases |s|
  {
    FirstOccurrenceSpec(s, pat);
    ReplaceAllUnfold(s, pat, rep);
    if s[..|pat|] == pat {
      assert s[..i] == [] && s[i + |pat|..] == s[|pat|..];
    } else {
      ReplaceAllAtFirstStep(s, pat, rep, i);
    }
  }

  lemma SplitHead(s: string, i: nat, rep: string, tail: string)
    requires 1 <= i <= |s|
    ensures [s[0]] + (s[1..][..i - 1] + rep + tail) == s[..i] + rep + tail
  {
    assert [s[0]] + s[1..][..i - 1] == s[..i];
  }

  lemma {:induction false} ReplaceAllAtFirstStep(s: string, pat: string, rep: string, i: nat)
    requires |pat| > 0 && FirstOccurrence(s, pat) == Some(i) && i + |pat| <= |s| && s[..|pat|] != pat
    ensures ReplaceAll(s, pat, rep) == s[..i] + rep + ReplaceAll(s[i + |pat|..], pat, rep)
    decreases |s|, 0
  {
    var t := s[1..];
    assert FirstOccurrence(t, pat) == Some(i - 1);
    ReplaceAllAtFirst(t, pat, rep, i - 1);
    assert t[i - 1 + |pat|..] == s[i + |pat|..];
    var tail := ReplaceAll(s[i + |pat|..], pat, rep);
    assert ReplaceAll(t, pat, rep) == t[..i - 1] + rep + tail;
    ReplaceAllUnfold(s, pat, rep);
    assert ReplaceAll(s, pat, rep) == [s[0]] + ReplaceAll(t, pat, rep);
    SplitHead(s, i, rep, tail);
  }

  /** Replacing the pattern by itself is the identity. */
  lemma {:induction false} ReplaceAllSelf(s: string, pat: string)
    requires |pat| > 0
    ensures ReplaceAll(s, pat, pat) == s
    decreases |s|
  {
    if |s| >= |pat| {
      if s[..|pat|] == pat {
        ReplaceAllSelf(s[|pat|..], pat);
        assert s == s[..|pat|] + s[|pat|..];
      } else {
        ReplaceAllSelf(s[1..], pat);
      }
    }
  }

  /** The template after the substitutions for `variables`, in order. */
  function Substituted(template: string, variables: seq<(string, Value)>): string
    decreases |variables|
  {
    if variables == [] then template
    else
      var last := variables[|variables| - 1];
      ReplaceAll(Substituted(template, variables[..|variables| - 1]), Placeholder(last.0), Render(last.1))
  }

  /** `buildPrompt`: substitutes key by key in `Object.entries` order, then normalises. */
  method BuildPrompt(template: string, variables: seq<(string, Value)>) returns (prompt: string)
    ensures prompt == OptimizePrompt(Substituted(template, variables))
  {
    prompt := template;
    var i := 0;
    while i < |variables|
      invariant 0 <= i <= |variables|
      invariant prompt == Substituted(template, variables[..i])
    {
      var (key, value) := variables[i];
      assert variables[..i + 1][..i] == variables[..i];
      prompt := ReplaceAll(prompt, Placeholder(key), Render(value));
      i := i + 1;
    }
    assert variables[..i] == variables;
    prompt := OptimizePrompt(prompt);
  }

  /** A template without any `{` only gets normalised, whatever the variables. */
  lemma {:induction false} NoPlaceholdersOnlyNormalises(template: string, variables: seq<(string, Value)>)
    requires forall i :: 0 <= i < |template| ==> template[i] != '{'
    ensures Substituted(template, variables) == template
    decreases |variables|
  {
    if variables != [] {
      var last := variables[|variables| - 1];
      NoPlaceholdersOnlyNormalises(template, variables[..|variables| - 1]);
      var p := Placeholder(last.0);
      forall i | 0 <= i <= |template| - |p| ensures !OccursAt(template, p, i) {
        assert template[i..i + |p|][0] != p[0];
      }
      ReplaceAllAbsent(template, p, Render(last.1));
    }
  }

  // ---------------------------------------------------------------------------
  // addUserContext
  // ---------------------------------------------------------------------------

  datatype UserContext = UserContext(
    userName: Option<string>, favoriteTeams: Option<seq<string>>, language: Option<string>)

  const TeamsNotePrefix := "\n\nNote: L'utilisateur suit particulièrement ces équipes: "
  const LanguageNotePrefix := "\n\nNote: Réponds en "

  /** True when the language note is added: a language is set and it is not French. */
  predicate WantsOtherLanguage(context: UserContext) {
    TruthyString(context.language) && context.language.value != "fr"
  }

  /** The header put in front of the prompt: present exactly for a non-empty user name. */
  function UserHeader(context: UserContext): (h: string)
    ensures h == "" <==> !TruthyString(context.userName)
    ensures TruthyString(context.userName) ==> h == "Utilisateur: " + context.userName.value + "\n\n"
  {
    if TruthyString(context.userName) then "Utilisateur: " + context.userName.value + "\n\n" else ""
  }

  /** The note naming the favourite teams. */
  function TeamsNote(teams: seq<string>): string {
    TeamsNotePrefix + Join(teams, ", ")
  }

  /** The note asking for another language. */
  function LanguageNote(language: string): string {
    LanguageNotePrefix + language
  }

  /** The notes appended after the prompt: teams first, then the language. */
  function ContextNotes(context: UserContext): (n: string)
    ensures n == "" <==> !NonEmptyList(context.favoriteTeams) && !WantsOtherLanguage(context)
  {
    (if NonEmptyList(context.favoriteTeams) then TeamsNote(context.favoriteTeams.value) else "")
    + (if WantsOtherLanguage(context) then LanguageNote(context.language.value) else "")
  }

  /** `addUserContext`: the header, then the prompt unchanged, then the notes. */
  method AddUserContext(prompt: string, context: UserContext) returns (enhanced: string)
    ensures enhanced == UserHeader(context) + prompt + ContextNotes(context)
  {
    enhanced := prompt;
    if TruthyString(context.userName) {
      enhanced := UserHeader(context) + enhanced;
    } else {
      assert UserHeader(context) + prompt == prompt;
    }
    ghost var withHeader := enhanced;
    if NonEmptyList(context.favoriteTeams) {
      enhanced := enhanced + TeamsNote(context.favoriteTeams.value);
    }
    ghost var withTeams := enhanced;
    if WantsOtherLanguage(context) {
      enhanced := enhanced + LanguageNote(context.language.value);
    }
    NotesAppended(withHeader, withTeams, enhanced, context);
  }

  /** Appending the notes one after the other appends `ContextNotes`. */
  lemma NotesAppended(s: string, t: string, u: string, context: UserContext)
    requires t == if NonEmptyList(context.favoriteTeams) then s + TeamsNote(context.favoriteTeams.value) else s
    requires u == if WantsOtherLanguage(context) then t + LanguageNote(context.language.value) else t
    ensures u == s + ContextNotes(context)
  {
  }

  /** With nothing to add the prompt comes back unchanged. */
  lemma EmptyContextKeepsPrompt(prompt: string, context: UserContext)
    requires !TruthyString(context.userName) && !NonEmptyList(context.favoriteTeams)
    requires !WantsOtherLanguage(context)
    ensures UserHeader(context) + prompt + ContextNotes(context) == prompt
  {
  }
}
