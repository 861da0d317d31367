/**
 * `escape_markdown_v2` of bot.py: `re.sub` with a one-character class that puts
 * a backslash in front of every character of the class. The class as written
 * in the source and the class Telegram's MarkdownV2 actually reserves are both
 * modelled; bot.py uses the former.
 */
module Markdown {

  /**
   * The characters of the class at bot.py:29 as Python's `re` reads it: inside
   * `[...]` the `$`, `:` and letters of `$begin:math:display$$end:math:display$`
   * are literal, and `\-` is a literal minus. There is no `[` and no `]`.
   * The display below lists each character of the pattern once, in order of
   * first appearance.
   */
  const AsWrittenClass: set<char> := {
    '*', '_', '`', '$', 'b', 'e', 'g', 'i', 'n', ':', 'm', 'a', 't', 'h', 'd', 's', 'p', 'l', 'y',
    '(', ')', '~', '>', '#', '+', '-', '=', '|', '{', '}', '.', '!'
  }

  /** The characters Telegram's MarkdownV2 requires to be escaped in plain text. */
  const MarkdownV2Reserved: set<char> := {
    '_', '*', '[', ']', '(', ')', '~', '`', '>', '#', '+', '-', '=', '|', '{', '}', '.', '!'
  }

  /** How many characters of `s` belong to `cls`. */
  function Count(s: string, cls: set<char>): nat
  {
    if s == [] then 0 else (if s[0] in cls then 1 else 0) + Count(s[1..], cls)
  }

  /** Puts a backslash before every character of `s` that belongs to `cls`. */
  function Escape(s: string, cls: set<char>): (r: string)
    ensures |r| == |s| + Count(s, cls)
    ensures '\\' !in cls && |r| > 0 ==> r[0] !in cls
  {
    if s == [] then []
    else (if s[0] in cls then ['\\', s[0]] else [s[0]]) + Escape(s[1..], cls)
  }

  /** Drops every backslash that stands before a character of `cls`. */
  function Unescape(t: string, cls: set<char>): string
  {
    if |t| >= 2 && t[0] == '\\' && t[1] in cls then [t[1]] + Unescape(t[2..], cls)
    else if t == [] then []
    else [t[0]] + Unescape(t[1..], cls)
  }

  /** Every character of `t` that belongs to `cls` directly follows a backslash. */
  predicate EveryReservedEscaped(t: string, cls: set<char>) {
    forall i :: 0 <= i < |t| && t[i] in cls ==> i > 0 && t[i - 1] == '\\'
  }

  /** Escaping loses nothing: removing the inserted backslashes gives the input back. */
  lemma {:induction false} EscapeRoundTrip(s: string, cls: set<char>)
    requires '\\' !in cls
    ensures Unescape(Escape(s, cls), cls) == s
    decreases |s|
  {
    if s != [] {
      EscapeRoundTrip(s[1..], cls);
      var rest := Escape(s[1..], cls);
      if s[0] in cls {
        assert Escape(s, cls) == ['\\', s[0]] + rest;
        assert (['\\', s[0]] + rest)[2..] == rest;
      } else {
        assert Escape(s, cls) == [s[0]] + rest;
        assert ([s[0]] + rest)[1..] == rest;
      }
    }
  }

  /** Escaping leaves no character of the class without its backslash. */
  lemma {:induction false} EscapeCoversClass(s: string, cls: set<char>)
    requires '\\' !in cls
    ensures EveryReservedEscaped(Escape(s, cls), cls)
    decreases |s|
  {
    if s != [] {
      EscapeCoversClass(s[1..], cls);
      var piece := if s[0] in cls then ['\\', s[0]] else [s[0]];
      var rest := Escape(s[1..], cls);
      var t := Escape(s, cls);
      assert t == piece + rest;
      forall i | 0 <= i < |t| && t[i] in cls
        ensures i > 0 && t[i - 1] == '\\'
      {
        if i >= |piece| {
          assert t[i] == rest[i - |piece|];
        }
      }
    }
  }

  /**
   * `escape_markdown_v2` exactly as bot.py:25-30 writes it: each character of
   * the literal class gets one backslash, all others pass through, so the text
   * grows by the number of matched characters.
   */
  function EscapeMarkdownV2(s: string): (r: string)
    ensures |r| == |s| + Count(s, AsWrittenClass)
    ensures Unescape(r, AsWrittenClass) == s
    ensures EveryReservedEscaped(r, AsWrittenClass)
  {
    EscapeRoundTrip(s, AsWrittenClass);
    EscapeCoversClass(s, AsWrittenClass);
    Escape(s, AsWrittenClass)
  }

  /** The escaping MarkdownV2 needs: the same substitution over the reserved characters. */
  function EscapeMarkdownV2Intended(s: string): (r: string)
    ensures |r| == |s| + Count(s, MarkdownV2Reserved)
    ensures Unescape(r, MarkdownV2Reserved) == s
    ensures EveryReservedEscaped(r, MarkdownV2Reserved)
  {
    EscapeRoundTrip(s, MarkdownV2Reserved);
    EscapeCoversClass(s, MarkdownV2Reserved);
    Escape(s, MarkdownV2Reserved)
  }

  /**
   * The written class lets square brackets through unescaped (Telegram then
   * rejects the message) and escapes ordinary letters such as `a`; the
   * intended escaping handles both.
   */
  lemma AsWrittenMissesBrackets()
    ensures EscapeMarkdownV2("[1]") == "[1]"
    ensures !EveryReservedEscaped(EscapeMarkdownV2("[1]"), MarkdownV2Reserved)
    ensures EscapeMarkdownV2("a") == "\\a"
    ensures EscapeMarkdownV2Intended("[1]") == "\\[1\\]"
    ensures EscapeMarkdownV2Intended("a") == "a"
  {
    assert Escape("", AsWrittenClass) == "";
    assert Escape("]", AsWrittenClass) == "]";
    assert Escape("1]", AsWrittenClass) == "1]";
    assert Escape("[1]", AsWrittenClass) == "[1]";
    assert Escape("a", AsWrittenClass) == "\\a";
    assert Escape("]", MarkdownV2Reserved) == "\\]";
    assert Escape("1]", MarkdownV2Reserved) == "1\\]";
    assert Escape("a", MarkdownV2Reserved) == "a";
    assert EscapeMarkdownV2("[1]")[0] == '[';
  }
}
