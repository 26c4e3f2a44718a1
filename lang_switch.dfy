/**
 * Rewriting the language prefix of a URL path (`switch_lang_code` in
 * laumproject/urls.py). The configured languages (`settings.LANGUAGES`, a list
 * of (code, name) pairs) are a parameter.
 */
module LangSwitch {
  import opened Wrappers

  /** The three exceptions `switch_lang_code` raises, in the order it checks for them. */
  datatype SwitchError = EmptyPath | NoLeadingSlash | UnsupportedLanguage(language: string)

  /** The codes of the configured languages, in order (`lang_codes`). */
  function LangCodes(languages: seq<(string, string)>): (codes: seq<string>)
    ensures forall c :: c in codes <==> exists name :: (c, name) in languages
  {
    if languages == [] then []
    else [languages[0].0] + LangCodes(languages[1..])
  }

  // ---------------------------------------------------------------------------
  // Python's str.split('/') and '/'.join(...)
  // ---------------------------------------------------------------------------

  /** Index of the first '/' in `s`, or `|s|` when `s` has none. */
  function SepIndex(s: string): (i: nat)
    ensures i <= |s|
    ensures i < |s| ==> s[i] == '/'
    ensures forall k :: 0 <= k < i ==> s[k] != '/'
  {
    if s == [] then 0 else if s[0] == '/' then 0 else 1 + SepIndex(s[1..])
  }

  /** `s.split('/')`: the maximal '/'-free pieces between separators; never empty. */
  function Split(s: string): (parts: seq<string>)
    ensures |parts| >= 1
    ensures forall k :: 0 <= k < |parts| ==> '/' !in parts[k]
    decreases |s|
  {
    var i := SepIndex(s);
    if i == |s| then [s] else [s[..i]] + Split(s[i + 1..])
  }

  /** `'/'.join(parts)`. */
  function Join(parts: seq<string>): (s: string)
  {
    if |parts| == 0 then ""
    else if |parts| == 1 then parts[0]
    else parts[0] + "/" + Join(parts[1..])
  }

  /** Joining what was split gives back the original string. */
  lemma {:induction false} JoinSplit(s: string)
    ensures Join(Split(s)) == s
    decreases |s|
  {
    var i := SepIndex(s);
    if i == |s| {
      assert Split(s) == [s];
    } else {
      var head, after := s[..i], s[i + 1..];
      var rest := Split(after);
      JoinSplit(after);
      assert Split(s) == [head] + rest;
      JoinCons(head, rest);
      assert s == head + "/" + after;
    }
  }

  /** A '/'-free piece followed by nothing or by a separator: the piece is the first part. */
  lemma SplitSegment(a: string, x: string)
    requires '/' !in a
    requires x == "" || x[0] == '/'
    ensures SepIndex(a + x) == |a|
    ensures Split(a + x) == [a] + (if x == "" then [] else Split(x[1..]))
  {
    var s := a + x;
    var i := SepIndex(s);
    assert forall k :: 0 <= k < |a| ==> s[k] == a[k];
    assert x != "" ==> s[|a|] == '/';
    assert i == |a|;
    assert s[..i] == a;
    if x == "" {
      assert s == a;
    } else {
      assert s[i + 1..] == x[1..];
      assert Split(s) == [s[..i]] + Split(s[i + 1..]);
    }
  }

  /** A path that starts with '/' splits into an empty part followed by the split of the rest. */
  lemma SplitRooted(path: string)
    requires path != "" && path[0] == '/'
    ensures Split(path) == [""] + Split(path[1..])
    ensures Split(path[1..])[0] == FirstSegment(path)
  {
  }

  /** Splitting what was joined gives back the parts, when no part contains '/'. */
  lemma {:induction false} SplitJoin(parts: seq<string>)
    requires |parts| >= 1
    requires forall k :: 0 <= k < |parts| ==> '/' !in parts[k]
    ensures Split(Join(parts)) == parts
  {
    if |parts| == 1 {
      SplitSegment(parts[0], "");
      assert parts[0] + "" == parts[0];
    } else {
      var rest := Join(parts[1..]);
      SplitJoin(parts[1..]);
      SplitSegment(parts[0], "/" + rest);
      assert ("/" + rest)[1..] == rest;
      assert Join(parts) == parts[0] + ("/" + rest);
      assert parts == [parts[0]] + parts[1..];
    }
  }

  /** Replacing the first part of a list changes only the front of the joined string. */
  lemma JoinReplaceHead(parts: seq<string>, x: string)
    requires |parts| >= 1
    ensures |Join(parts)| >= |parts[0]|
    ensures Join(parts[0 := x]) == x + Join(parts)[|parts[0]|..]
  {
  }

  /** Joining a part in front of a non-empty list puts one separator between them. */
  lemma JoinCons(head: string, rest: seq<string>)
    requires |rest| >= 1
    ensures Join([head] + rest) == head + "/" + Join(rest)
  {
    assert ([head] + rest)[1..] == rest;
  }

  // ---------------------------------------------------------------------------
  // The switch, stated on the path itself
  // ---------------------------------------------------------------------------

  /** The first segment of a path that starts with '/': the text up to the next '/'. */
  function FirstSegment(path: string): (seg: string)
    requires path != ""
    ensures '/' !in seg
  {
    var tail := path[1..];
    var seg := tail[..SepIndex(tail)];
    assert forall c :: c in seg ==> c != '/';
    seg
  }

  /** What follows "/<language>" after a switch: the path less "/<code>" when its first segment is a configured code, the whole path otherwise. */
  function Remainder(path: string, codes: seq<string>): (rest: string)
    requires path != "" && path[0] == '/'
    ensures rest == "" || rest[0] == '/'
  {
    var seg := FirstSegment(path);
    if seg in codes then path[1 + |seg|..] else path
  }

  /**
   * What `switch_lang_code(path, language)` returns or raises, given the
   * configured codes. The checks run in a fixed order: empty path, missing
   * leading '/', unsupported language.
   */
  function Switch(path: string, language: string, codes: seq<string>): (r: Result<string, SwitchError>)
    ensures path == "" ==> r == Err(EmptyPath)
    ensures path != "" && path[0] != '/' ==> r == Err(NoLeadingSlash)
    ensures path != "" && path[0] == '/' && language !in codes ==> r == Err(UnsupportedLanguage(language))
    ensures r.Ok? <==> path != "" && path[0] == '/' && language in codes
    ensures r.Ok? ==> |r.value| > |language| && r.value[..|language| + 1] == "/" + language
  {
    if path == "" then Err(EmptyPath)
    else if path[0] != '/' then Err(NoLeadingSlash)
    else if language !in codes then Err(UnsupportedLanguage(language))
    else Ok("/" + language + Remainder(path, codes))
  }

  /** Overwriting `parts[1]` of a rooted path and joining leaves "/<language>" followed by the path less its first segment. */
  lemma ReplaceFirstSegment(path: string, language: string)
    requires path != "" && path[0] == '/'
    ensures |Split(path)| >= 2
    ensures Join(Split(path)[1 := language]) == "/" + language + path[1 + |FirstSegment(path)|..]
  {
    var tail := path[1..];
    var parts := Split(tail);
    SplitRooted(path);
    assert Split(path)[1 := language] == [""] + parts[0 := language];
    JoinCons("", parts[0 := language]);
    assert "" + "/" == "/";
    JoinReplaceHead(parts, language);
    JoinSplit(tail);
    assert path[1 + |FirstSegment(path)|..] == tail[|FirstSegment(path)|..];
  }

  /** The source's algorithm: split on '/', overwrite `parts[1]` or `parts[0]`, join. */
  method SwitchLangCode(path: string, language: string, languages: seq<(string, string)>)
    returns (r: Result<string, SwitchError>)
    ensures r == Switch(path, language, LangCodes(languages))
  {
    var langCodes := LangCodes(languages);
    if path == "" {
      return Err(EmptyPath);
    } else if path[0] != '/' {
      return Err(NoLeadingSlash);
    } else if language !in langCodes {
      return Err(UnsupportedLanguage(language));
    }

    var parts := Split(path);
    SplitRooted(path);
    if parts[1] in langCodes {
      parts := parts[1 := language];
      ReplaceFirstSegment(path, language);
    } else {
      parts := parts[0 := "/" + language];
      JoinReplaceHead(Split(path), "/" + language);
      JoinSplit(path);
    }
    r := Ok(Join(parts));
  }

  // ---------------------------------------------------------------------------
  // Properties of the switch
  // ---------------------------------------------------------------------------

  /** No configured code contains '/'. */
  predicate NoSlashCodes(codes: seq<string>)
  {
    forall k :: 0 <= k < |codes| ==> '/' !in codes[k]
  }

  /**
   * When the first segment is a configured code, a switch replaces exactly that
   * segment: the split of the result is the split of the path with `parts[1]`
   * set to the language, so every other segment and the segment count stay.
   */
  lemma SwitchReplacesSegment(path: string, language: string, codes: seq<string>)
    requires Switch(path, language, codes).Ok?
    requires '/' !in language
    requires FirstSegment(path) in codes
    ensures |Split(path)| >= 2
    ensures Split(Switch(path, language, codes).value) == Split(path)[1 := language]
  {
    ReplaceFirstSegment(path, language);
    var parts := Split(path)[1 := language];
    assert Switch(path, language, codes).value == Join(parts);
    SplitJoin(parts);
  }

  /** When the first segment is not a configured code, the result is "/<language>" put before the whole path. */
  lemma SwitchPrependsLanguage(path: string, language: string, codes: seq<string>)
    requires Switch(path, language, codes).Ok?
    requires FirstSegment(path) !in codes
    ensures Switch(path, language, codes).value == "/" + language + path
  {
  }

  /** Two switches in a row land where the second one alone would. */
  lemma SwitchTwiceIsSwitchOnce(path: string, a: string, b: string, codes: seq<string>)
    requires NoSlashCodes(codes)
    requires Switch(path, a, codes).Ok?
    ensures Switch(Switch(path, a, codes).value, b, codes) == Switch(path, b, codes)
  {
    var x := Remainder(path, codes);
    var q := Switch(path, a, codes).value;
    assert q == "/" + (a + x);
    var k :| 0 <= k < |codes| && codes[k] == a;
    SplitSegment(a, x);
    assert q[1..] == a + x;
    assert FirstSegment(q) == a;
    assert q[1 + |a|..] == x;
    assert Remainder(q, codes) == x;
  }

  /** Switching to the language the path already has changes nothing. */
  lemma SwitchIdempotent(path: string, language: string, codes: seq<string>)
    requires NoSlashCodes(codes)
    requires Switch(path, language, codes).Ok?
    ensures Switch(Switch(path, language, codes).value, language, codes) == Switch(path, language, codes)
  {
    SwitchTwiceIsSwitchOnce(path, language, language, codes);
  }
}
