/** The file-label helpers `prettify_file_label` and `to_safe_file_label`. The shared
    base and the older monolithic client hold character-identical copies of both, so
    each is defined once here. */
module FileLabels {

  predicate IsAsciiLetter(c: char) { 'A' <= c <= 'Z' || 'a' <= c <= 'z' }

  predicate IsAsciiDigit(c: char) { '0' <= c <= '9' }

  predicate IsAscii(s: string) { forall i :: 0 <= i < |s| ==> s[i] as int < 128 }

  /** `[A-Za-z0-9_]`: Python's `\w` restricted to ASCII. */
  predicate IsWordChar(c: char) { IsAsciiLetter(c) || IsAsciiDigit(c) || c == '_' }

  /** `re.match(r"^[A-Za-z_]", s)` succeeds. */
  predicate StartsLikeIdentifier(s: string) { |s| > 0 && (IsAsciiLetter(s[0]) || s[0] == '_') }

  /** `s` matches `^[A-Za-z_][A-Za-z0-9_]*$`, the form the docstring promises. */
  predicate IsSafeLabel(s: string)
  {
    StartsLikeIdentifier(s) && forall i :: 0 <= i < |s| ==> IsWordChar(s[i])
  }

  /** Python's `s.endswith(suffix)`. */
  predicate EndsWith(s: string, suffix: string)
  {
    |suffix| <= |s| && s[|s| - |suffix|..] == suffix
  }

  // ---------------------------------------------------------------------------
  // prettify_file_label
  // ---------------------------------------------------------------------------

  /** `s[:-len(suffix)]` when `s.endswith(suffix)`, otherwise `s`. */
  function StripSuffix(s: string, suffix: string): (r: string)
    ensures EndsWith(s, suffix) ==> s == r + suffix
    ensures !EndsWith(s, suffix) ==> r == s
  {
    if EndsWith(s, suffix) then s[..|s| - |suffix|] else s
  }

  /** Strips a ".json" suffix, then a "_SOLARGIS_JSON" suffix, from a label the API sent. */
  function PrettifyFileLabel(text: string): (r: string)
    ensures r <= text
    ensures text[|r|..] in {"", ".json", "_SOLARGIS_JSON", "_SOLARGIS_JSON.json"}
    ensures r == text <==> !EndsWith(text, ".json") && !EndsWith(text, "_SOLARGIS_JSON")
    ensures EndsWith(text, "_SOLARGIS_JSON.json") ==> r == text[..|text| - 19]
  {
    var stem := StripSuffix(text, ".json");
    var r := StripSuffix(stem, "_SOLARGIS_JSON");
    assert text[|stem|..] == (if EndsWith(text, ".json") then ".json" else "");
    assert stem[|r|..] == (if EndsWith(stem, "_SOLARGIS_JSON") then "_SOLARGIS_JSON" else "");
    assert text[|r|..] == stem[|r|..] + text[|stem|..];
    assert "_SOLARGIS_JSON" + ".json" == "_SOLARGIS_JSON.json";
    assert EndsWith(text, "_SOLARGIS_JSON.json") ==>
      text[|text| - 19..][14..] == text[|text| - 5..] && EndsWith(text, ".json") &&
      stem == text[..|text| - 5] && stem[|stem| - 14..] == text[|text| - 19..][..14];
    r
  }

  lemma PrettifyExamplesJson()
    ensures PrettifyFileLabel("site_SOLARGIS_JSON.json") == "site"
    ensures PrettifyFileLabel("plain.json") == "plain"
  {
    assert EndsWith("site_SOLARGIS_JSON.json", "_SOLARGIS_JSON.json");
    assert EndsWith("plain.json", ".json");
    assert !EndsWith("plain", "_SOLARGIS_JSON");
  }

  lemma PrettifyExamplesNoJson()
    ensures PrettifyFileLabel("plain_SOLARGIS_JSON") == "plain"
    ensures PrettifyFileLabel("report.csv") == "report.csv"
  {
    assert EndsWith("plain_SOLARGIS_JSON", "_SOLARGIS_JSON");
    assert !EndsWith("report.csv", ".json") && !EndsWith("report.csv", "_SOLARGIS_JSON");
  }

  // ---------------------------------------------------------------------------
  // to_safe_file_label
  // ---------------------------------------------------------------------------

  /** `s.replace(from, to)` for single characters. */
  function ReplaceChar(s: string, from: char, to: char): (r: string)
    ensures |r| == |s|
    ensures forall i :: 0 <= i < |s| ==> r[i] == if s[i] == from then to else s[i]
  {
    if s == [] then [] else [if s[0] == from then to else s[0]] + ReplaceChar(s[1..], from, to)
  }

  /** `re.sub(r"\W|^(?=\d)", "", s)`, where `\W` is every character `isWord` rejects.
      The alternative `^(?=\d)` only ever matches the empty string, so it removes nothing. */
  function DeleteNonWord(isWord: char -> bool, s: string): (r: string)
    ensures |r| <= |s|
    ensures forall i :: 0 <= i < |r| ==> isWord(r[i])
  {
    if s == [] then [] else (if isWord(s[0]) then [s[0]] else []) + DeleteNonWord(isWord, s[1..])
  }

  /** The first three lines of `to_safe_file_label`: spaces and hyphens become
      underscores, then every non-word character is deleted. */
  function CleanWith(isWord: char -> bool, text: string): string
  {
    DeleteNonWord(isWord, ReplaceChar(ReplaceChar(text, ' ', '_'), '-', '_'))
  }

  /** `to_safe_file_label` for a given meaning of `\w`: clean the label, then prepend
      "_" unless it starts with an ASCII letter or an underscore. Python's own `\w`
      is Unicode-aware; see `UnicodeWordBreaksSafeLabel`. */
  function ToSafeFileLabelWith(isWord: char -> bool, text: string): (r: string)
    ensures r == CleanWith(isWord, text) || r == "_" + CleanWith(isWord, text)
    ensures StartsLikeIdentifier(r)
  {
    var cleaned := CleanWith(isWord, text);
    if StartsLikeIdentifier(cleaned) then cleaned else "_" + cleaned
  }

  /** `to_safe_file_label` with `\w` read as `[A-Za-z0-9_]`, the meaning its docstring
      needs; on ASCII labels this is exactly the Python function (`AsciiLabelsAgree`). */
  function ToSafeFileLabel(text: string): (r: string)
    ensures IsSafeLabel(r)
  {
    ToSafeFileLabelWith(IsWordChar, text)
  }

  // ----- lemmas about the cleaning steps -----

  /** Deleting non-word characters works character by character, so kept characters keep their order. */
  lemma {:induction false} DeleteNonWordAppend(isWord: char -> bool, a: string, b: string)
    ensures DeleteNonWord(isWord, a + b) == DeleteNonWord(isWord, a) + DeleteNonWord(isWord, b)
  {
    if a == [] {
      assert a + b == b;
    } else {
      var head := if isWord(a[0]) then [a[0]] else [];
      assert (a + b)[0] == a[0] && (a + b)[1..] == a[1..] + b;
      calc {
        DeleteNonWord(isWord, a + b);
        head + DeleteNonWord(isWord, a[1..] + b);
        { DeleteNonWordAppend(isWord, a[1..], b); }
        head + (DeleteNonWord(isWord, a[1..]) + DeleteNonWord(isWord, b));
        (head + DeleteNonWord(isWord, a[1..])) + DeleteNonWord(isWord, b);
        DeleteNonWord(isWord, a) + DeleteNonWord(isWord, b);
      }
    }
  }

  /** Deleting non-word characters removes nothing exactly when every character is a word character. */
  lemma {:induction false} DeleteNonWordIdentity(isWord: char -> bool, s: string)
    ensures DeleteNonWord(isWord, s) == s <==> forall i :: 0 <= i < |s| ==> isWord(s[i])
  {
    if s != [] {
      DeleteNonWordIdentity(isWord, s[1..]);
      if !isWord(s[0]) {
        assert |DeleteNonWord(isWord, s)| < |s|;
      } else if DeleteNonWord(isWord, s) == s {
        assert DeleteNonWord(isWord, s[1..]) == s[1..];
        forall i | 0 <= i < |s| ensures isWord(s[i]) {
          if i > 0 { assert s[i] == s[1..][i - 1]; }
        }
      } else {
        assert DeleteNonWord(isWord, s[1..]) != s[1..];
      }
    }
  }

  /** Two meanings of `\w` that agree on ASCII characters delete the same characters from an ASCII string. */
  lemma {:induction false} DeleteNonWordAscii(isWord: char -> bool, s: string)
    requires forall c: char :: c as int < 128 ==> (isWord(c) <==> IsWordChar(c))
    requires IsAscii(s)
    ensures DeleteNonWord(isWord, s) == DeleteNonWord(IsWordChar, s)
  {
    if s != [] {
      assert s[0] as int < 128;
      DeleteNonWordAscii(isWord, s[1..]);
    }
  }

  lemma ReplaceCharAppend(a: string, b: string, from: char, to: char)
    ensures ReplaceChar(a + b, from, to) == ReplaceChar(a, from, to) + ReplaceChar(b, from, to)
  {
  }

  /** The cleaned label: characters of the input, in order, with ' ' and '-' turned into '_' and every
      other non-word character dropped; per character, so cleaning distributes over concatenation. */
  lemma CleanAppend(a: string, b: string)
    ensures CleanWith(IsWordChar, a + b) == CleanWith(IsWordChar, a) + CleanWith(IsWordChar, b)
  {
    ReplaceCharAppend(a, b, ' ', '_');
    ReplaceCharAppend(ReplaceChar(a, ' ', '_'), ReplaceChar(b, ' ', '_'), '-', '_');
    DeleteNonWordAppend(IsWordChar, ReplaceChar(ReplaceChar(a, ' ', '_'), '-', '_'), ReplaceChar(ReplaceChar(b, ' ', '_'), '-', '_'));
  }

  /** An already safe label has no ' ', '-' or other non-word character, so cleaning leaves it alone. */
  lemma CleanSafeLabel(s: string)
    requires forall i :: 0 <= i < |s| ==> IsWordChar(s[i])
    ensures CleanWith(IsWordChar, s) == s
  {
    assert ReplaceChar(s, ' ', '_') == s;
    assert ReplaceChar(s, '-', '_') == s;
    DeleteNonWordIdentity(IsWordChar, s);
  }

  // ----- properties of to_safe_file_label -----

  /** The label is returned unchanged exactly when it already matches `^[A-Za-z_][A-Za-z0-9_]*$`. */
  lemma SafeLabelFixpoint(text: string)
    ensures ToSafeFileLabel(text) == text <==> IsSafeLabel(text)
  {
    if IsSafeLabel(text) {
      CleanSafeLabel(text);
    }
  }

  /** Sanitising twice is sanitising once. */
  lemma SafeLabelIdempotent(text: string)
    ensures ToSafeFileLabel(ToSafeFileLabel(text)) == ToSafeFileLabel(text)
  {
    SafeLabelFixpoint(ToSafeFileLabel(text));
  }

  /** "_" is prepended exactly when the cleaned label is empty or does not start with [A-Za-z_];
      in particular a text that starts with a digit keeps the digit, after a new leading "_". */
  lemma SafeLabelPrefixRule(text: string)
    ensures ToSafeFileLabel(text) == "_" + CleanWith(IsWordChar, text) <==> !StartsLikeIdentifier(CleanWith(IsWordChar, text))
    ensures ToSafeFileLabel(text) == CleanWith(IsWordChar, text) <==> StartsLikeIdentifier(CleanWith(IsWordChar, text))
    ensures |text| > 0 && IsAsciiDigit(text[0]) ==> ToSafeFileLabel(text)[..2] == ['_', text[0]]
  {
    var cleaned := CleanWith(IsWordChar, text);
    if |text| > 0 && IsAsciiDigit(text[0]) {
      CleanAppend(text[..1], text[1..]);
      assert text[..1] + text[1..] == text;
      assert ReplaceChar(ReplaceChar(text[..1], ' ', '_'), '-', '_') == text[..1];
      assert CleanWith(IsWordChar, text[..1]) == [text[0]];
      assert cleaned[0] == text[0];
    }
  }

  /** Words joined by a space and a hyphen come out joined by underscores. */
  lemma CleanJoined(a: string, b: string, c: string)
    requires forall i :: 0 <= i < |a| ==> IsWordChar(a[i])
    requires forall i :: 0 <= i < |b| ==> IsWordChar(b[i])
    requires forall i :: 0 <= i < |c| ==> IsWordChar(c[i])
    ensures CleanWith(IsWordChar, a + " " + b + "-" + c) == a + "_" + b + "_" + c
  {
    CleanSafeLabel(a);
    CleanSafeLabel(b);
    CleanSafeLabel(c);
    CleanAppend(a, " ");
    CleanAppend(a + " ", b);
    CleanAppend(a + " " + b, "-");
    CleanAppend(a + " " + b + "-", c);
    CleanChar(' ');
    CleanChar('-');
  }

  lemma CleanExampleSite()
    ensures CleanWith(IsWordChar, "My Site-1") == "My_Site_1"
  {
    CleanJoined("My", "Site", "1");
    assert "My" + " " + "Site" + "-" + "1" == "My Site-1";
    assert "My" + "_" + "Site" + "_" + "1" == "My_Site_1";
  }

  lemma SafeLabelExampleSite()
    ensures ToSafeFileLabel("My Site-1") == "My_Site_1"
  {
    CleanExampleSite();
  }

  lemma SafeLabelExampleDigits()
    ensures ToSafeFileLabel("123") == "_123"
    ensures ToSafeFileLabel("") == "_"
  {
    CleanSafeLabel("123");
  }

  lemma SafeLabelExampleDot()
    ensures ToSafeFileLabel("a.b") == "ab"
  {
    CleanExampleDot();
  }

  lemma CleanExampleDot()
    ensures CleanWith(IsWordChar, "a.b") == "ab"
  {
    assert "a.b" == ['a'] + ['.'] + ['b'];
    CleanAppend(['a'], ['.']);
    CleanAppend(['a'] + ['.'], ['b']);
    CleanChar('a');
    CleanChar('.');
    CleanChar('b');
  }

  /** Cleaning one character: a space or hyphen becomes "_", a word character stays, anything else goes. */
  lemma CleanChar(c: char)
    ensures CleanWith(IsWordChar, [c]) ==
      if c == ' ' || c == '-' then "_" else if IsWordChar(c) then [c] else []
  {
    assert ReplaceChar([c], ' ', '_') == [if c == ' ' then '_' else c];
    var d := if c == ' ' then '_' else c;
    assert ReplaceChar([d], '-', '_') == [if d == '-' then '_' else d];
  }

  // ----- the Unicode-aware `\W` of the source (see README, Findings) -----

  /** On ASCII labels the Python function, whatever `\w` means beyond ASCII, is `ToSafeFileLabel`. */
  lemma AsciiLabelsAgree(isWord: char -> bool, text: string)
    requires forall c: char :: c as int < 128 ==> (isWord(c) <==> IsWordChar(c))
    requires IsAscii(text)
    ensures ToSafeFileLabelWith(isWord, text) == ToSafeFileLabel(text)
  {
    var replaced := ReplaceChar(ReplaceChar(text, ' ', '_'), '-', '_');
    assert IsAscii(replaced);
    DeleteNonWordAscii(isWord, replaced);
  }

  /** Python's `\w` matches a non-ASCII letter such as 'é', so `to_safe_file_label("é")` is "_é",
      which does not match `^[A-Za-z_][A-Za-z0-9_]*$` although the docstring promises it does. */
  lemma UnicodeWordBreaksSafeLabel(isWord: char -> bool)
    requires isWord('\U{E9}')
    ensures ToSafeFileLabelWith(isWord, "\U{E9}") == "_\U{E9}"
    ensures !IsSafeLabel(ToSafeFileLabelWith(isWord, "\U{E9}"))
  {
    assert ReplaceChar(ReplaceChar("\U{E9}", ' ', '_'), '-', '_') == "\U{E9}";
    assert DeleteNonWord(isWord, "\U{E9}") == "\U{E9}";
    assert !IsWordChar('\U{E9}');
    assert ("_\U{E9}")[1] == '\U{E9}';
  }
}
