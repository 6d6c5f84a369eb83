/**
 Model policies (packages/branding/src/provider-policy.ts): a glob is escaped into the source of a
 regular expression, which JavaScript parses and matches. The source text is produced and parsed
 here as well, so that the escaping itself is what is proved.
 */
module ProviderPolicy {
  import opened Sequences

  // ---------------------------------------------------------------- the glob, by itself

  function Stars(pattern: string): nat {
    if pattern == "" then 0 else Stars(pattern[1..]) + if pattern[0] == '*' then 1 else 0
  }

  /** The pattern with its n-th star replaced by the n-th run. */
  function Fill(pattern: string, runs: seq<string>): string
    requires |runs| == Stars(pattern)
  {
    if pattern == "" then ""
    else if pattern[0] == '*' then runs[0] + Fill(pattern[1..], runs[1..])
    else [pattern[0]] + Fill(pattern[1..], runs)
  }

  predicate IsLineTerminator(c: char) {
    c == '\n' || c == '\r' || c == '\U{2028}' || c == '\U{2029}'
  }

  predicate OneLine(value: string) {
    forall i :: 0 <= i < |value| ==> !IsLineTerminator(value[i])
  }

  ghost predicate Fills(pattern: string, runs: seq<string>, value: string) {
    |runs| == Stars(pattern) && Fill(pattern, runs) == value
  }

  /** `*` stands for any run of characters, everything else for itself. */
  ghost predicate GlobAccepts(pattern: string, value: string) {
    exists runs :: Fills(pattern, runs, value)
  }

  /** The same, with runs that stay on one line. */
  ghost predicate OneLineGlobAccepts(pattern: string, value: string) {
    exists runs :: Fills(pattern, runs, value) && forall i :: 0 <= i < |runs| ==> OneLine(runs[i])
  }

  // ---------------------------------------------------------------- regular expressions

  datatype Atom = Literal(c: char) | AnyChar
  datatype Term = Once(atom: Atom) | Many(atom: Atom)

  predicate AtomAccepts(atom: Atom, c: char) {
    match atom
    case Literal(l) => c == l
    case AnyChar => !IsLineTerminator(c)
  }

  /** Whether the terms match the whole value, as between `^` and `$`. */
  predicate Matches(terms: seq<Term>, value: string)
    decreases |terms|, |value|
  {
    if terms == [] then value == ""
    else match terms[0]
      case Once(atom) => value != "" && AtomAccepts(atom, value[0]) && Matches(terms[1..], value[1..])
      case Many(atom) =>
        || Matches(terms[1..], value)
        || (value != "" && AtomAccepts(atom, value[0]) && Matches(terms, value[1..]))
  }

  /** The characters with a meaning in the syntax, `*` among them. */
  predicate IsSyntax(c: char) {
    c == '^' || c == '$' || c == '\\' || c == '.' || c == '*' || c == '+' || c == '?' || c == '(' || c == ')'
    || c == '[' || c == ']' || c == '{' || c == '}' || c == '|'
  }

  /** The part of the regular expression syntax that consists of plain characters, escaped syntax
      characters and dots, each possibly starred; any other source is not in it. */
  function Parse(source: string): Option<seq<Term>>
    decreases |source|
  {
    if source == "" then Some([])
    else
      var (atom, rest) := ParseAtom(source);
      if atom.None? then None
      else
        var starred := rest != "" && rest[0] == '*';
        var tail := Parse(if starred then rest[1..] else rest);
        if tail.None? then None
        else Some([if starred then Many(atom.value) else Once(atom.value)] + tail.value)
  }

  function ParseAtom(source: string): (r: (Option<Atom>, string))
    requires source != ""
    ensures |r.1| < |source|
  {
    if source[0] == '\\' then
      if |source| > 1 && IsSyntax(source[1]) then (Some(Literal(source[1])), source[2..]) else (None, source[1..])
    else if source[0] == '.' then (Some(AnyChar), source[1..])
    else if IsSyntax(source[0]) then (None, source[1..])
    else (Some(Literal(source[0])), source[1..])
  }

  // ---------------------------------------------------------------- the source's escaping

  /** The class `[.+?^${}()|[\]\\]` of the first replacement. */
  predicate InEscapedClass(c: char) {
    c == '.' || c == '+' || c == '?' || c == '^' || c == '$' || c == '{' || c == '}' || c == '(' || c == ')'
    || c == '|' || c == '[' || c == ']' || c == '\\'
  }

  /** The first replacement puts a backslash before every character of the class. */
  function EscapeSyntax(pattern: string): string {
    if pattern == "" then ""
    else (if InEscapedClass(pattern[0]) then ['\\', pattern[0]] else [pattern[0]]) + EscapeSyntax(pattern[1..])
  }

  /** `replaceAll("*", ".*")` */
  function ExpandStars(text: string): string {
    if text == "" then ""
    else (if text[0] == '*' then ".*" else [text[0]]) + ExpandStars(text[1..])
  }

  function Escape(pattern: string): string {
    ExpandStars(EscapeSyntax(pattern))
  }

  predicate MatchesPattern(pattern: string, value: string) {
    var terms := Parse(Escape(pattern));
    terms.Some? && Matches(terms.value, value)
  }

  // ---------------------------------------------------------------- escaping preserves meaning

  function Compile(pattern: string): seq<Term> {
    if pattern == "" then []
    else [if pattern[0] == '*' then Many(AnyChar) else Once(Literal(pattern[0]))] + Compile(pattern[1..])
  }

  /** One pattern character in the escaped source. */
  function Escaped(c: char): string {
    if c == '*' then ".*" else if IsSyntax(c) then ['\\', c] else [c]
  }

  lemma EscapeFirst(pattern: string)
    requires pattern != ""
    ensures Escape(pattern) == Escaped(pattern[0]) + Escape(pattern[1..])
  {
    var c, rest := pattern[0], EscapeSyntax(pattern[1..]);
    if InEscapedClass(c) {
      assert ['\\', c] + rest == ['\\'] + ([c] + rest);
      ExpandFirst('\\', [c] + rest);
    }
    ExpandFirst(c, rest);
  }

  lemma ExpandFirst(c: char, rest: string)
    ensures ExpandStars([c] + rest) == (if c == '*' then ".*" else [c]) + ExpandStars(rest)
  {
    assert ([c] + rest)[1..] == rest;
  }

  /** A star in the escaped source always follows a dot, so no atom is starred by accident. */
  lemma NoLooseStar(pattern: string)
    ensures Escape(pattern) != "" ==> Escape(pattern)[0] != '*'
  {
    if pattern == "" {
    } else {
      EscapeFirst(pattern);
    }
  }

  /** Parsing takes one escaped character off the source, with its star. */
  lemma ParseEscaped(c: char, rest: string)
    requires rest != "" ==> rest[0] != '*'
    requires Parse(rest).Some?
    ensures Parse(Escaped(c) + rest) ==
            Some([if c == '*' then Many(AnyChar) else Once(Literal(c))] + Parse(rest).value)
  {
    var source := Escaped(c) + rest;
    if c == '*' {
      assert ParseAtom(source) == (Some(AnyChar), ['*'] + rest) by { assert source[1..] == ['*'] + rest; }
      assert (['*'] + rest)[1..] == rest;
    } else if IsSyntax(c) {
      assert ParseAtom(source) == (Some(Literal(c)), rest) by { assert source[2..] == rest; }
    } else {
      assert ParseAtom(source) == (Some(Literal(c)), rest) by { assert source[1..] == rest; }
    }
  }

  lemma {:induction false} ParseEscape(pattern: string)
    ensures Parse(Escape(pattern)) == Some(Compile(pattern))
  {
    if pattern == "" {
      assert Escape(pattern) == "";
    } else {
      EscapeFirst(pattern);
      NoLooseStar(pattern[1..]);
      ParseEscape(pattern[1..]);
      hide Escape, Escaped, Parse;
      ParseEscaped(pattern[0], Escape(pattern[1..]));
    }
  }

  // ---------------------------------------------------------------- matching is filling

  lemma {:induction false} FillMatches(pattern: string, runs: seq<string>)
    requires |runs| == Stars(pattern) && forall i :: 0 <= i < |runs| ==> OneLine(runs[i])
    ensures Matches(Compile(pattern), Fill(pattern, runs))
    decreases |pattern|
  {
    if pattern == "" {
    } else {
      var terms := Compile(pattern);
      assert terms[1..] == Compile(pattern[1..]);
      if pattern[0] == '*' {
        FillMatches(pattern[1..], runs[1..]);
        SkipRun(terms, runs[0], Fill(pattern[1..], runs[1..]));
      } else {
        FillMatches(pattern[1..], runs);
        assert Fill(pattern, runs)[1..] == Fill(pattern[1..], runs);
      }
    }
  }

  lemma {:induction false} SkipRun(terms: seq<Term>, run: string, rest: string)
    requires terms != [] && terms[0] == Many(AnyChar) && OneLine(run) && Matches(terms[1..], rest)
    ensures Matches(terms, run + rest)
  {
    if run == "" {
      assert run + rest == rest;
    } else {
      SkipRun(terms, run[1..], rest);
      assert (run + rest)[1..] == run[1..] + rest;
    }
  }

  lemma {:induction false} MatchFills(pattern: string, value: string) returns (runs: seq<string>)
    requires Matches(Compile(pattern), value)
    ensures Fills(pattern, runs, value) && forall i :: 0 <= i < |runs| ==> OneLine(runs[i])
    decreases |pattern|, |value|
  {
    if pattern == "" {
      runs := [];
    } else {
      var terms, rest := Compile(pattern), pattern[1..];
      assert terms[1..] == Compile(rest);
      if pattern[0] != '*' {
        runs := MatchFills(rest, value[1..]);
        assert value == [value[0]] + value[1..];
      } else if Matches(terms[1..], value) {
        var more := MatchFills(rest, value);
        runs := [""] + more;
        assert runs[1..] == more;
      } else {
        var less := MatchFills(pattern, value[1..]);
        runs := [[value[0]] + less[0]] + less[1..];
        assert runs[1..] == less[1..];
        assert value == [value[0]] + value[1..];
      }
    }
  }

  /** For every pattern and every value: what the source's regular expression accepts is what the
      glob accepts with each star standing for a run without line terminators. */
  lemma EscapingPreservesMeaning(pattern: string, value: string)
    ensures Parse(Escape(pattern)).Some?
    ensures MatchesPattern(pattern, value) <==> OneLineGlobAccepts(pattern, value)
  {
    ParseEscape(pattern);
    hide Escape, Parse, Compile, Matches;
    if MatchesPattern(pattern, value) {
      var runs := MatchFills(pattern, value);
    }
    if OneLineGlobAccepts(pattern, value) {
      var runs :| Fills(pattern, runs, value) && forall i :: 0 <= i < |runs| ==> OneLine(runs[i]);
      FillMatches(pattern, runs);
    }
  }

  lemma {:induction false} RunsAreInValue(pattern: string, runs: seq<string>)
    requires |runs| == Stars(pattern) && OneLine(Fill(pattern, runs))
    ensures forall i :: 0 <= i < |runs| ==> OneLine(runs[i])
    decreases |pattern|
  {
    if pattern == "" {
    } else {
      var rest := pattern[1..];
      if pattern[0] == '*' {
        var tail := Fill(rest, runs[1..]);
        assert forall k :: 0 <= k < |runs[0]| ==> runs[0][k] == (runs[0] + tail)[k];
        assert forall k :: 0 <= k < |tail| ==> tail[k] == (runs[0] + tail)[|runs[0]| + k];
        RunsAreInValue(rest, runs[1..]);
        assert forall i :: 1 <= i < |runs| ==> runs[i] == runs[1..][i - 1];
      } else {
        var tail := Fill(rest, runs);
        assert forall k :: 0 <= k < |tail| ==> tail[k] == ([pattern[0]] + tail)[k + 1];
        RunsAreInValue(rest, runs);
      }
    }
  }

  /** On values without line terminators the regular expression is the glob. */
  lemma GlobOnOneLine(pattern: string, value: string)
    requires OneLine(value)
    ensures MatchesPattern(pattern, value) <==> GlobAccepts(pattern, value)
  {
    EscapingPreservesMeaning(pattern, value);
    hide MatchesPattern, Fill, Stars;
    if runs :| Fills(pattern, runs, value) {
      RunsAreInValue(pattern, runs);
    }
  }

  /** Exactly on those values: where a line terminator occurs, the bare star accepts it as a glob and
      refuses it as a regular expression. */
  lemma StarStopsAtNewline(value: string)
    ensures GlobAccepts("*", value)
    ensures MatchesPattern("*", value) <==> OneLine(value)
    ensures (forall pattern :: MatchesPattern(pattern, value) <==> GlobAccepts(pattern, value)) <==> OneLine(value)
  {
    StarFills(value);
    EscapingPreservesMeaning("*", value);
    assert Fills("*", [value], value);
    if OneLine(value) {
      forall pattern
        ensures MatchesPattern(pattern, value) <==> GlobAccepts(pattern, value)
      {
        GlobOnOneLine(pattern, value);
      }
    }
    hide MatchesPattern, Fills;
    if OneLineGlobAccepts("*", value) {
      var runs :| Fills("*", runs, value) && forall i :: 0 <= i < |runs| ==> OneLine(runs[i]);
      assert runs == [value];
    }
  }

  lemma StarFills(value: string)
    ensures forall runs :: Fills("*", runs, value) <==> runs == [value]
  {
    forall runs: seq<string> | |runs| == Stars("*")
      ensures Fill("*", runs) == runs[0]
    {
      assert Fill("*", runs) == runs[0] + Fill("", runs[1..]);
    }
  }

  // ---------------------------------------------------------------- the policy

  datatype ModelRules = ModelRules(allow: seq<string>, deny: seq<string>)

  type Policy = map<string, ModelRules>

  /** What one provider's rules say of a model: on an allow list, if there is one, and on no deny list. */
  ghost predicate Permits(rules: ModelRules, model: string, accepts: (string, string) -> bool) {
    && (rules.allow == [] || exists i :: 0 <= i < |rules.allow| && accepts(rules.allow[i], model))
    && forall i :: 0 <= i < |rules.deny| ==> !accepts(rules.deny[i], model)
  }

  ghost predicate AllPermit(policy: Policy, providers: seq<string>, model: string, accepts: (string, string) -> bool) {
    forall k :: 0 <= k < |providers| && providers[k] in policy ==> Permits(policy[providers[k]], model, accepts)
  }

  method SomeMatch(patterns: seq<string>, model: string) returns (found: bool)
    ensures found <==> exists i :: 0 <= i < |patterns| && MatchesPattern(patterns[i], model)
  {
    for k := 0 to |patterns|
      invariant forall i :: 0 <= i < k ==> !MatchesPattern(patterns[i], model)
    {
      if MatchesPattern(patterns[k], model) {
        return true;
      }
    }
    return false;
  }

  /** A model is allowed exactly when every provider that has rules permits it, a pattern being the
      glob it looks like (with runs that stay on one line, when the model's name does not). */
  method IsModelAllowed(policy: Policy, providers: seq<string>, model: string) returns (allowed: bool)
    ensures allowed <==> AllPermit(policy, providers, model, OneLineGlobAccepts)
    ensures OneLine(model) ==> (allowed <==> AllPermit(policy, providers, model, GlobAccepts))
  {
    hide MatchesPattern, GlobAccepts, OneLineGlobAccepts;
    PatternsAreGlobs(model);
    for n := 0 to |providers|
      invariant AllPermit(policy, providers[..n], model, MatchesPattern)
    {
      if providers[n] !in policy {
        continue;
      }
      var rules := policy[providers[n]];
      if |rules.allow| > 0 {
        var listed := SomeMatch(rules.allow, model);
        if !listed {
          assert !Permits(policy[providers[n]], model, MatchesPattern);
          return false;
        }
      }
      var denied := SomeMatch(rules.deny, model);
      if denied {
        assert !Permits(policy[providers[n]], model, MatchesPattern);
        return false;
      }
    }
    assert providers[..|providers|] == providers;
    return true;
  }

  lemma PatternsAreGlobs(model: string)
    ensures forall pattern :: MatchesPattern(pattern, model) <==> OneLineGlobAccepts(pattern, model)
    ensures OneLine(model) ==> forall pattern :: MatchesPattern(pattern, model) <==> GlobAccepts(pattern, model)
  {
    hide MatchesPattern, GlobAccepts, OneLineGlobAccepts;
    forall pattern
      ensures MatchesPattern(pattern, model) <==> OneLineGlobAccepts(pattern, model)
      ensures OneLine(model) ==> (MatchesPattern(pattern, model) <==> GlobAccepts(pattern, model))
    {
      EscapingPreservesMeaning(pattern, model);
      if OneLine(model) {
        GlobOnOneLine(pattern, model);
      }
    }
  }
}
