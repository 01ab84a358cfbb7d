/** SQL LIKE with backslash as escape, and the escaping of search input. */
module Like {

  /** Whether `text` matches `pattern`; `same` is the collation's character equivalence. */
  predicate Matches(pattern: string, text: string, same: (char, char) -> bool)
    decreases |pattern| + |text|
  {
    if pattern == "" then
      text == ""
    else if pattern[0] == '%' then
      Matches(pattern[1..], text, same) || (text != "" && Matches(pattern, text[1..], same))
    else if pattern[0] == '\\' && |pattern| > 1 then
      text != "" && same(pattern[1], text[0]) && Matches(pattern[2..], text[1..], same)
    else if pattern[0] == '_' then
      text != "" && Matches(pattern[1..], text[1..], same)
    else
      text != "" && same(pattern[0], text[0]) && Matches(pattern[1..], text[1..], same)
  }

  function EscapeChar(c: char): string
  {
    if c == '\\' || c == '%' || c == '_' then ['\\', c] else [c]
  }

  function Escape(s: string): string
  {
    if s == "" then "" else EscapeChar(s[0]) + Escape(s[1..])
  }

  /** The argument bound to `title LIKE ?`. */
  function SearchPattern(search: string): string
  {
    "%" + Escape(search) + "%"
  }

  /** `needle` occurs in `text` at position `i`, character by character. */
  predicate OccursAt(needle: string, text: string, i: int, same: (char, char) -> bool)
  {
    0 <= i <= |text| - |needle| && forall k :: 0 <= k < |needle| ==> same(needle[k], text[i + k])
  }

  lemma {:induction false} PercentMatchesAll(text: string, same: (char, char) -> bool)
    ensures Matches("%", text, same)
  {
    if text != "" {
      PercentMatchesAll(text[1..], same);
    }
  }

  /** An escaped needle followed by `%` matches exactly the texts that start with it. */
  lemma {:induction false} EscapedPrefix(needle: string, text: string, same: (char, char) -> bool)
    ensures Matches(Escape(needle) + "%", text, same) <==> OccursAt(needle, text, 0, same)
  {
    if needle == "" {
      PercentMatchesAll(text, same);
      assert Escape(needle) + "%" == "%";
    } else {
      var c, rest := EscapeChar(needle[0]), Escape(needle[1..]) + "%";
      var pattern := Escape(needle) + "%";
      assert pattern == c + rest;
      assert pattern[|c|..] == rest;
      if text != "" {
        EscapedPrefix(needle[1..], text[1..], same);
        assert forall k :: 0 <= k < |needle| - 1 ==> needle[1..][k] == needle[k + 1];
        if OccursAt(needle[1..], text[1..], 0, same) && same(needle[0], text[0]) {
          forall k | 0 <= k < |needle|
            ensures same(needle[k], text[k])
          {
            if k > 0 {
              assert needle[1..][k - 1] == needle[k] && text[1..][0 + (k - 1)] == text[k];
            }
          }
        }
        if OccursAt(needle, text, 0, same) {
          forall k | 0 <= k < |needle[1..]|
            ensures same(needle[1..][k], text[1..][0 + k])
          {
            assert same(needle[k + 1], text[0 + (k + 1)]);
          }
          assert same(needle[0], text[0 + 0]);
        }
      }
    }
  }

  lemma {:induction false} PercentSkips(pattern: string, text: string, same: (char, char) -> bool)
    ensures Matches("%" + pattern, text, same) <==> exists i :: 0 <= i <= |text| && Matches(pattern, text[i..], same)
  {
    assert ("%" + pattern)[1..] == pattern;
    assert text[0..] == text;
    if text != "" {
      PercentSkips(pattern, text[1..], same);
      if Matches("%" + pattern, text[1..], same) {
        var i :| 0 <= i <= |text[1..]| && Matches(pattern, text[1..][i..], same);
        assert text[1..][i..] == text[i + 1..];
      }
      forall i | 0 < i <= |text| && Matches(pattern, text[i..], same)
        ensures Matches("%" + pattern, text[1..], same)
      {
        assert text[1..][i - 1..] == text[i..];
      }
    }
  }

  /** The search filter accepts a title exactly when the search occurs in it literally. */
  lemma SearchIsSubstring(search: string, title: string, same: (char, char) -> bool)
    ensures Matches(SearchPattern(search), title, same) <==> exists i :: OccursAt(search, title, i, same)
  {
    var tail := Escape(search) + "%";
    assert SearchPattern(search) == "%" + tail;
    PercentSkips(tail, title, same);
    forall i | 0 <= i <= |title|
      ensures Matches(tail, title[i..], same) <==> OccursAt(search, title, i, same)
    {
      EscapedPrefix(search, title[i..], same);
      if OccursAt(search, title[i..], 0, same) {
        forall k | 0 <= k < |search|
          ensures same(search[k], title[i + k])
        {
          assert title[i..][0 + k] == title[i + k];
        }
      }
      if OccursAt(search, title, i, same) {
        forall k | 0 <= k < |search|
          ensures same(search[k], title[i..][0 + k])
        {
          assert title[i..][0 + k] == title[i + k];
        }
      }
    }
  }
}
