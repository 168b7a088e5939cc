/**
 * Two string rules of the editor's main page (app.js): the bold/italic
 * toggles, which edit the space-separated `fontStyle` of the selected text
 * node, and the id under which a web-font stylesheet is injected once.
 */
module AppText {
  import opened Optional

  // ---------------------------------------------------------------------------
  // Space-separated token lists
  // ---------------------------------------------------------------------------

  /** `s.split(' ')`: always at least one part; empty parts appear between adjacent spaces. */
  function Split(s: string): (parts: seq<string>)
    ensures |parts| >= 1
  {
    if s == [] then [""]
    else if s[0] == ' ' then [""] + Split(s[1..])
    else
      var rest := Split(s[1..]);
      [[s[0]] + rest[0]] + rest[1..]
  }

  /** `parts.join(' ')`: the first part, then a space before each further part. */
  function Join(parts: seq<string>): (s: string)
    ensures parts == [] ==> s == ""
    ensures parts != [] ==> |parts[0]| <= |s| && s[..|parts[0]|] == parts[0]
    ensures |parts| > 1 ==> |parts[0]| < |s| && s[|parts[0]|] == ' '
  {
    if |parts| == 0 then ""
    else if |parts| == 1 then parts[0]
    else parts[0] + " " + Join(parts[1..])
  }

  /** No part holds the separator. */
  predicate SpaceFree(parts: seq<string>) {
    forall i :: 0 <= i < |parts| ==> ' ' !in parts[i]
  }

  /** `.filter(Boolean)`: drop the empty strings, keep every other part. */
  function NonEmpty(parts: seq<string>): (r: seq<string>)
    ensures forall i :: 0 <= i < |r| ==> r[i] != "" && r[i] in parts
    ensures multiset(r) == multiset(parts)["" := 0]
    ensures |r| <= |parts|
  {
    if parts == [] then []
    else
      assert parts == [parts[0]] + parts[1..];
      if parts[0] == "" then NonEmpty(parts[1..])
      else [parts[0]] + NonEmpty(parts[1..])
  }

  /** `.filter(s => s !== flag)`: drop every copy of the flag, keep every other part. */
  function Without(parts: seq<string>, flag: string): (r: seq<string>)
    ensures forall i :: 0 <= i < |r| ==> r[i] != flag && r[i] in parts
    ensures multiset(r) == multiset(parts)[flag := 0]
    ensures |r| <= |parts|
  {
    if parts == [] then []
    else
      assert parts == [parts[0]] + parts[1..];
      if parts[0] == flag then Without(parts[1..], flag)
      else [parts[0]] + Without(parts[1..], flag)
  }

  /** Filtering keeps the order: the kept parts of a concatenation are those of each half, concatenated. */
  lemma {:induction false} NonEmptyAppend(a: seq<string>, b: seq<string>)
    ensures NonEmpty(a + b) == NonEmpty(a) + NonEmpty(b)
  {
    if a != [] {
      assert (a + b)[1..] == a[1..] + b;
      NonEmptyAppend(a[1..], b);
    } else {
      assert a + b == b;
    }
  }

  /** Removing the flag keeps the order of the other parts. */
  lemma {:induction false} WithoutAppend(a: seq<string>, b: seq<string>, flag: string)
    ensures Without(a + b, flag) == Without(a, flag) + Without(b, flag)
  {
    if a != [] {
      assert (a + b)[1..] == a[1..] + b;
      WithoutAppend(a[1..], b, flag);
    } else {
      assert a + b == b;
    }
  }

  /** Filtering a space-free list leaves it space-free. */
  lemma NonEmptyKeepsSpaceFree(parts: seq<string>)
    requires SpaceFree(parts)
    ensures SpaceFree(NonEmpty(parts))
  {
    var r := NonEmpty(parts);
    forall i | 0 <= i < |r| ensures ' ' !in r[i] {
      assert r[i] in parts;
    }
  }

  /** The style tokens of a `fontStyle` string: nonempty and free of spaces. */
  function Tokens(style: string): (ts: seq<string>)
    ensures SpaceFree(ts)
    ensures forall i :: 0 <= i < |ts| ==> ts[i] != ""
    ensures multiset(ts) == multiset(Split(style))["" := 0]
  {
    SplitIsSpaceFree(style);
    NonEmptyKeepsSpaceFree(Split(style));
    NonEmpty(Split(style))
  }

  /** Every part of a split is free of spaces. */
  lemma {:induction false} SplitIsSpaceFree(s: string)
    ensures SpaceFree(Split(s))
  {
    if s != [] {
      SplitIsSpaceFree(s[1..]);
      if s[0] != ' ' {
        var rest := Split(s[1..]);
        assert ' ' !in rest[0];
        var parts := Split(s);
        forall i | 0 <= i < |parts| ensures ' ' !in parts[i] {
          if i > 0 {
            assert parts[i] == rest[i];
          }
        }
      }
    }
  }

  /** Joining the parts of a split gives back the string. */
  lemma {:induction false} JoinSplit(s: string)
    ensures Join(Split(s)) == s
  {
    if s != [] {
      JoinSplit(s[1..]);
      var rest := Split(s[1..]);
      if s[0] == ' ' {
        assert Split(s) == [""] + rest;
        assert Join(Split(s)) == "" + " " + Join(rest);
      } else {
        if |rest| == 1 {
          assert Join(Split(s)) == [s[0]] + rest[0];
        } else {
          assert Split(s)[1..] == rest[1..];
          assert Join(rest) == rest[0] + " " + Join(rest[1..]);
          assert Join(Split(s)) == ([s[0]] + rest[0]) + " " + Join(rest[1..]);
        }
        assert [s[0]] + s[1..] == s;
      }
    }
  }

  /** Splitting a join of space-free parts gives back the parts. */
  lemma {:induction false} SplitJoin(parts: seq<string>)
    requires |parts| >= 1 && SpaceFree(parts)
    ensures Split(Join(parts)) == parts
  {
    if |parts| == 1 {
      assert ' ' !in parts[0];
      SplitWord(parts[0], "");
      assert parts[0] + "" == parts[0];
      assert Split("") == [""];
      assert Split(parts[0]) == [parts[0]];
      assert Join(parts) == parts[0];
      assert [parts[0]] == parts;
    } else {
      assert SpaceFree(parts[1..]) by {
        forall i | 0 <= i < |parts| - 1 ensures ' ' !in parts[1..][i] {
          assert parts[1..][i] == parts[i + 1];
        }
      }
      SplitJoin(parts[1..]);
      SplitWord(parts[0], " " + Join(parts[1..]));
      assert parts[0] + " " + Join(parts[1..]) == parts[0] + (" " + Join(parts[1..]));
      var tail := " " + Join(parts[1..]);
      assert tail[0] == ' ' && tail[1..] == Join(parts[1..]);
      assert Split(tail) == [""] + Split(tail[1..]);
      assert Split(tail) == [""] + parts[1..];
      assert Split(tail)[0] == "" && Split(tail)[1..] == parts[1..];
      assert parts[0] + "" == parts[0];
      assert Join(parts) == parts[0] + " " + Join(parts[1..]);
      assert [parts[0]] + parts[1..] == parts;
    }
  }

  /** A space-free word in front of a string extends the first part of its split. */
  lemma {:induction false} SplitWord(w: string, s: string)
    requires ' ' !in w
    ensures Split(w + s) == [w + Split(s)[0]] + Split(s)[1..]
  {
    if w != [] {
      SplitWord(w[1..], s);
      assert (w + s)[0] == w[0] && (w + s)[1..] == w[1..] + s;
      assert [w[0]] + (w[1..] + Split(s)[0]) == w + Split(s)[0];
    } else {
      assert w + s == s;
      assert Split(s) == [Split(s)[0]] + Split(s)[1..];
      assert "" + Split(s)[0] == Split(s)[0];
    }
  }

  /** The non-empty, space-free tokens survive a join and a re-split unchanged. */
  lemma TokensOfJoin(ts: seq<string>)
    requires SpaceFree(ts)
    requires forall i :: 0 <= i < |ts| ==> ts[i] != ""
    ensures Tokens(Join(ts)) == ts
  {
    if ts == [] {
      assert Tokens("") == NonEmpty([""]);
    } else {
      SplitJoin(ts);
      NonEmptyOfNonEmpty(ts);
    }
  }

  lemma {:induction false} NonEmptyOfNonEmpty(ts: seq<string>)
    requires forall i :: 0 <= i < |ts| ==> ts[i] != ""
    ensures NonEmpty(ts) == ts
  {
    if ts != [] {
      NonEmptyOfNonEmpty(ts[1..]);
    }
  }

  lemma WithoutKeepsWords(parts: seq<string>, flag: string)
    requires SpaceFree(parts) && forall i :: 0 <= i < |parts| ==> parts[i] != ""
    ensures var r := Without(parts, flag); SpaceFree(r) && forall i :: 0 <= i < |r| ==> r[i] != ""
  {
    var r := Without(parts, flag);
    forall i | 0 <= i < |r| ensures ' ' !in r[i] && r[i] != "" {
      assert r[i] in parts;
    }
  }

  // ---------------------------------------------------------------------------
  // toggleStyle
  // ---------------------------------------------------------------------------

  /**
   * `toggleStyle(flag, button)` on the selected text node's `fontStyle` (None
   * when no text node is selected) and the button's pressed state.
   * Returns the node's new `fontStyle` and the button's new pressed state.
   */
  function ToggleStyle(fontStyle: Option<string>, flag: string, pressed: bool): (r: (Option<string>, bool))
    ensures fontStyle.None? ==> r == (None, pressed)
    ensures fontStyle.Some? ==> r.0.Some? && r.1 == !pressed
  {
    match fontStyle
    case None => (None, pressed)
    case Some(style) =>
      var on := !pressed;
      var tokens := Tokens(style);
      // the source computes `tokens.includes(flag)` and never uses it
      var next := if on then Join(tokens + [flag]) else Join(Without(tokens, flag));
      (Some(next), on)
  }

  /**
   * Switching a style on keeps the old tokens in order and appends the flag,
   * even when it is already there.
   */
  lemma ToggleOnAppends(style: string, flag: string)
    requires flag != "" && ' ' !in flag
    ensures var r := ToggleStyle(Some(style), flag, false);
      r.1 && r.0 == Some(Join(Tokens(style) + [flag])) && Tokens(r.0.value) == Tokens(style) + [flag]
  {
    var ts := Tokens(style) + [flag];
    assert SpaceFree(ts) by {
      forall i | 0 <= i < |ts| ensures ' ' !in ts[i] {
        if i < |ts| - 1 { assert ts[i] == Tokens(style)[i]; }
      }
    }
    TokensOfJoin(ts);
  }

  /** Switching a style off keeps the other tokens in order and removes every copy of the flag. */
  lemma ToggleOffRemoves(style: string, flag: string)
    ensures var r := ToggleStyle(Some(style), flag, true);
      !r.1 && Tokens(r.0.value) == Without(Tokens(style), flag) && flag !in Tokens(r.0.value)
  {
    WithoutKeepsWords(Tokens(style), flag);
    TokensOfJoin(Without(Tokens(style), flag));
  }

  /**
   * Because the presence check is unused, switching on an already present
   * style duplicates it. Two "on" switches in a row need the button to read
   * unpressed both times, which happens only when its toggle state is out of
   * step with the node (a node already styled while the button shows
   * unpressed); a second click on the same button would switch the style off.
   */
  lemma ToggleOnTwiceDuplicates(flag: string)
    requires flag != "" && ' ' !in flag
    ensures var once := ToggleStyle(Some(""), flag, false).0.value;
      Tokens(ToggleStyle(Some(once), flag, false).0.value) == [flag, flag]
  {
    ToggleOnAppends("", flag);
    var once := ToggleStyle(Some(""), flag, false).0.value;
    assert Tokens("") == NonEmpty([""]) == [];
    ToggleOnAppends(once, flag);
  }

  // ---------------------------------------------------------------------------
  // The stylesheet id of a font family
  // ---------------------------------------------------------------------------

  /** The characters JavaScript's regular-expression class `\s` matches. */
  predicate IsSpace(c: char)
    ensures c == ' ' || c == '\t' || c == '\n' || c == '\r' || c == '\U{00A0}' ==> IsSpace(c)
    ensures '0' <= c <= '9' || 'a' <= c <= 'z' || 'A' <= c <= 'Z' || c == '-' ==> !IsSpace(c)
  {
    c == '\t' || c == '\n' || c == '\U{000B}' || c == '\U{000C}' || c == '\r' || c == ' '
    || c == '\U{00A0}' || c == '\U{1680}' || ('\U{2000}' <= c <= '\U{200A}')
    || c == '\U{2028}' || c == '\U{2029}' || c == '\U{202F}' || c == '\U{205F}'
    || c == '\U{3000}' || c == '\U{FEFF}'
  }

  predicate NoSpace(s: string) {
    forall i :: 0 <= i < |s| ==> !IsSpace(s[i])
  }

  /** The string after its leading run of whitespace. */
  function DropSpaces(s: string): (r: string)
    ensures |r| <= |s| && (r == [] || !IsSpace(r[0]))
    ensures r == s[|s| - |r|..]
  {
    if s != [] && IsSpace(s[0]) then DropSpaces(s[1..]) else s
  }

  /** `s.replace(/\s+/g, '-')`: every maximal run of whitespace becomes one hyphen. */
  function Hyphenate(s: string): (r: string)
    ensures |r| <= |s|
    decreases |s|
  {
    if s == [] then []
    else if IsSpace(s[0]) then "-" + Hyphenate(DropSpaces(s))
    else [s[0]] + Hyphenate(s[1..])
  }

  /** The id of the injected `<link>` element for a font family, checked before injecting it again. */
  function FontStylesheetId(family: string): (id: string)
    ensures |id| >= 6 && id[..6] == "gfont-"
    ensures NoSpace(id[6..])
    ensures NoSpace(family) ==> id == "gfont-" + family
  {
    HyphenateHasNoSpace(family);
    HyphenateKeepsSpaceFree(family);
    "gfont-" + Hyphenate(family)
  }

  /** Deriving the id from an id changes nothing more: the id is a fixed point of the rewrite. */
  lemma HyphenateIsIdempotent(s: string)
    ensures Hyphenate(Hyphenate(s)) == Hyphenate(s)
  {
    HyphenateHasNoSpace(s);
    HyphenateKeepsSpaceFree(Hyphenate(s));
  }

  /** The length of a run of whitespace does not matter: it always becomes a single hyphen. */
  lemma RunLengthIsForgotten(w: string, run: string, b: string)
    requires NoSpace(w)
    requires run != [] && forall i :: 0 <= i < |run| ==> IsSpace(run[i])
    requires b == [] || !IsSpace(b[0])
    ensures Hyphenate(w + (run + b)) == w + ("-" + Hyphenate(b))
  {
    HyphenateRun(run, b);
    HyphenateWord(w, run + b);
  }

  /** A run of whitespace in front of a non-space becomes one hyphen. */
  lemma HyphenateRun(run: string, b: string)
    requires run != [] && forall i :: 0 <= i < |run| ==> IsSpace(run[i])
    requires b == [] || !IsSpace(b[0])
    ensures Hyphenate(run + b) == "-" + Hyphenate(b)
  {
    assert (run + b)[0] == run[0];
    DropRun(run, b);
  }

  /** A whitespace-free word is copied through. */
  lemma {:induction false} HyphenateWord(w: string, s: string)
    requires NoSpace(w)
    ensures Hyphenate(w + s) == w + Hyphenate(s)
  {
    if w == [] {
      assert w + s == s;
    } else {
      var c, rest := w[0], w[1..];
      assert w == [c] + rest;
      assert w + s == [c] + (rest + s);
      assert NoSpace(rest) by {
        forall i | 0 <= i < |rest| ensures !IsSpace(rest[i]) {
          assert rest[i] == w[i + 1];
        }
      }
      HyphenateWord(rest, s);
      HyphenateCons(c, rest + s);
      assert [c] + (rest + Hyphenate(s)) == w + Hyphenate(s);
    }
  }

  /** A non-space character is copied through. */
  lemma HyphenateCons(c: char, t: string)
    requires !IsSpace(c)
    ensures Hyphenate([c] + t) == [c] + Hyphenate(t)
  {
    assert ([c] + t)[0] == c && ([c] + t)[1..] == t;
  }

  /** The rewrite leaves no whitespace. */
  lemma {:induction false} HyphenateHasNoSpace(s: string)
    ensures NoSpace(Hyphenate(s))
    decreases |s|
  {
    if s != [] {
      if IsSpace(s[0]) {
        HyphenateHasNoSpace(DropSpaces(s));
        var t := Hyphenate(DropSpaces(s));
        forall i | 0 <= i < |t| + 1 ensures !IsSpace(("-" + t)[i]) {
          if i > 0 { assert ("-" + t)[i] == t[i - 1]; }
        }
      } else {
        HyphenateHasNoSpace(s[1..]);
        var t := Hyphenate(s[1..]);
        forall i | 0 <= i < |t| + 1 ensures !IsSpace(([s[0]] + t)[i]) {
          if i > 0 { assert ([s[0]] + t)[i] == t[i - 1]; }
        }
      }
    }
  }

  /** A string without whitespace is its own rewrite. */
  lemma HyphenateKeepsSpaceFree(s: string)
    ensures NoSpace(s) ==> Hyphenate(s) == s
  {
    if NoSpace(s) {
      HyphenateWord(s, "");
      assert s + "" == s;
    }
  }

  /** Dropping a leading run of whitespace in front of a non-space. */
  lemma {:induction false} DropRun(run: string, b: string)
    requires forall i :: 0 <= i < |run| ==> IsSpace(run[i])
    requires b == [] || !IsSpace(b[0])
    ensures DropSpaces(run + b) == b
  {
    if run != [] {
      assert (run + b)[1..] == run[1..] + b;
      DropRun(run[1..], b);
    } else {
      assert run + b == b;
    }
  }

  /** So two spellings of one family that differ only in spacing share one stylesheet. */
  lemma DoubleSpaceSharesId()
    ensures FontStylesheetId("Open  Sans") == FontStylesheetId("Open Sans")
  {
    var w, b := "Open", "Sans";
    assert NoSpace(w);
    assert !IsSpace(b[0]);
    RunLengthIsForgotten(w, "  ", b);
    RunLengthIsForgotten(w, " ", b);
    assert w + ("  " + b) == "Open  Sans";
    assert w + (" " + b) == "Open Sans";
  }
}
