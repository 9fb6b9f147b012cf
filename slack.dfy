/**
 * `slack_escape` (python/slack.py): the report text is made safe for a
 * Slack message by escaping '&', '<' and '>' as HTML entities.
 */
module Slack {
  import opened Text

  /** `slack_escape(txt)`: the chain of `replace` calls, in source order. */
  function SlackEscape(txt: string): string
  {
    var t1 := ReplaceChar(txt, '&', "&amp;");
    var t2 := ReplaceChar(t1, '<', "&lt;");
    var t3 := ReplaceChar(t2, '>', "&gt;");
    ReplaceChar(t3, '\n', "\n")
  }

  /** Reference definition: the entity for each character on its own. */
  function EscapeChar(c: char): string
  {
    if c == '&' then "&amp;" else if c == '<' then "&lt;" else if c == '>' then "&gt;" else [c]
  }

  /** Reference definition: every character escaped independently. */
  function EscapeEach(s: string): string
  {
    if s == [] then [] else EscapeChar(s[0]) + EscapeEach(s[1..])
  }

  lemma {:induction false} EscapeEachAppend(a: string, b: string)
    ensures EscapeEach(a + b) == EscapeEach(a) + EscapeEach(b)
  {
    if a == [] {
      assert a + b == b;
    } else {
      assert (a + b)[1..] == a[1..] + b;
      EscapeEachAppend(a[1..], b);
    }
  }

  /** The final `replace("\n", '\n')` changes nothing. */
  lemma {:induction false} NewlineReplaceIsIdentity(s: string)
    ensures ReplaceChar(s, '\n', "\n") == s
  {
    if s != [] {
      NewlineReplaceIsIdentity(s[1..]);
    }
  }

  lemma SlackEscapeAppend(a: string, b: string)
    ensures SlackEscape(a + b) == SlackEscape(a) + SlackEscape(b)
  {
    ReplaceCharAppend(a, b, '&', "&amp;");
    var a1, b1 := ReplaceChar(a, '&', "&amp;"), ReplaceChar(b, '&', "&amp;");
    ReplaceCharAppend(a1, b1, '<', "&lt;");
    var a2, b2 := ReplaceChar(a1, '<', "&lt;"), ReplaceChar(b1, '<', "&lt;");
    ReplaceCharAppend(a2, b2, '>', "&gt;");
    var a3, b3 := ReplaceChar(a2, '>', "&gt;"), ReplaceChar(b2, '>', "&gt;");
    ReplaceCharAppend(a3, b3, '\n', "\n");
  }

  lemma SlackEscapeOne(c: char)
    ensures SlackEscape([c]) == EscapeChar(c)
  {
    var t1 := ReplaceChar([c], '&', "&amp;");
    assert [c][1..] == [];
    assert t1 == (if c == '&' then "&amp;" else [c]) + ReplaceChar([], '&', "&amp;");
    var t2 := ReplaceChar(t1, '<', "&lt;");
    if c == '&' {
      ReplaceCharAbsent(t1, '<', "&lt;");
    } else {
      assert t2 == (if c == '<' then "&lt;" else [c]) + ReplaceChar([], '<', "&lt;");
    }
    var t3 := ReplaceChar(t2, '>', "&gt;");
    if c == '&' || c == '<' {
      ReplaceCharAbsent(t2, '>', "&gt;");
    } else {
      assert t3 == (if c == '>' then "&gt;" else [c]) + ReplaceChar([], '>', "&gt;");
    }
    NewlineReplaceIsIdentity(t3);
  }

  /** Because '&' is replaced first, the entities introduced for '<' and
      '>' are not escaped again: the chain equals escaping each character
      on its own. */
  lemma {:induction false} SlackEscapeIsPerCharacter(s: string)
    ensures SlackEscape(s) == EscapeEach(s)
  {
    if s == [] {
      NewlineReplaceIsIdentity([]);
    } else {
      assert s == [s[0]] + s[1..];
      SlackEscapeAppend([s[0]], s[1..]);
      SlackEscapeOne(s[0]);
      SlackEscapeIsPerCharacter(s[1..]);
    }
  }

  lemma {:induction false} EscapeEachHasNoAngles(s: string)
    ensures '<' !in EscapeEach(s) && '>' !in EscapeEach(s)
  {
    if s != [] {
      EscapeEachHasNoAngles(s[1..]);
      assert '<' !in EscapeChar(s[0]) && '>' !in EscapeChar(s[0]);
    }
  }

  lemma {:induction false} EscapeEachLength(s: string)
    ensures |EscapeEach(s)| == |s| + 4 * Occurrences(s, '&') + 3 * Occurrences(s, '<') + 3 * Occurrences(s, '>')
  {
    if s != [] {
      EscapeEachLength(s[1..]);
    }
  }

  lemma {:induction false} EscapeEachPlain(s: string)
    requires '&' !in s && '<' !in s && '>' !in s
    ensures EscapeEach(s) == s
  {
    if s != [] {
      EscapeEachPlain(s[1..]);
      assert s == [s[0]] + s[1..];
    }
  }

  /** What the escaped text looks like: no '<' or '>' is left, the length
      grows by 4 per '&' and by 3 per '<' or '>', and text with none of
      the three characters is returned unchanged. */
  lemma SlackEscapeProperties(s: string)
    ensures '<' !in SlackEscape(s) && '>' !in SlackEscape(s)
    ensures |SlackEscape(s)| == |s| + 4 * Occurrences(s, '&') + 3 * Occurrences(s, '<') + 3 * Occurrences(s, '>')
    ensures '&' !in s && '<' !in s && '>' !in s ==> SlackEscape(s) == s
  {
    SlackEscapeIsPerCharacter(s);
    EscapeEachHasNoAngles(s);
    EscapeEachLength(s);
    if '&' !in s && '<' !in s && '>' !in s {
      EscapeEachPlain(s);
    }
  }
}
