/** The HTML entity escaping that the Printify and Etsy services apply to
    descriptions: five global `replace` passes, `&` first. */
module HtmlEscape {
  import opened Wrappers

  /** `s.replace(/c/g, rep)`. */
  function ReplaceAll(s: string, c: char, rep: string): string {
    if |s| == 0 then []
    else (if s[0] == c then rep else [s[0]]) + ReplaceAll(s[1..], c, rep)
  }

  /** The five passes in the order the source applies them. */
  function ReplaceChain(html: string): string {
    var amp := ReplaceAll(html, '&', "&amp;");
    var lt := ReplaceAll(amp, '<', "&lt;");
    var gt := ReplaceAll(lt, '>', "&gt;");
    var quot := ReplaceAll(gt, '"', "&quot;");
    ReplaceAll(quot, '\'', "&#039;")
  }

  /** The entity each character stands for after escaping. */
  function EntityFor(c: char): string {
    match c
    case '&' => "&amp;"
    case '<' => "&lt;"
    case '>' => "&gt;"
    case '"' => "&quot;"
    case '\'' => "&#039;"
    case _ => [c]
  }

  /** Reference definition: escape character by character in one pass. */
  function Escape(s: string): string {
    if |s| == 0 then [] else EntityFor(s[0]) + Escape(s[1..])
  }

  predicate IsSpecial(c: char) {
    c == '<' || c == '>' || c == '"' || c == '\''
  }

  /** No raw `<`, `>`, `"` or `'` is left. */
  predicate NoRawSpecials(s: string) {
    forall i :: 0 <= i < |s| ==> !IsSpecial(s[i])
  }

  /** The character an entity at the start of `s` stands for, and its length. */
  function EntityAt(s: string): Option<(char, nat)> {
    if |s| >= 5 && s[0] == '&' && s[1] == 'a' && s[2] == 'm' && s[3] == 'p' && s[4] == ';' then Some(('&', 5))
    else if |s| >= 4 && s[0] == '&' && s[1] == 'l' && s[2] == 't' && s[3] == ';' then Some(('<', 4))
    else if |s| >= 4 && s[0] == '&' && s[1] == 'g' && s[2] == 't' && s[3] == ';' then Some(('>', 4))
    else if |s| >= 6 && s[0] == '&' && s[1] == 'q' && s[2] == 'u' && s[3] == 'o' && s[4] == 't' && s[5] == ';' then Some(('"', 6))
    else if |s| >= 6 && s[0] == '&' && s[1] == '#' && s[2] == '0' && s[3] == '3' && s[4] == '9' && s[5] == ';' then Some(('\'', 6))
    else None
  }

  /** Decoding the five entities, left to right. */
  function Unescape(s: string): string
    decreases |s|
  {
    if |s| == 0 then []
    else match EntityAt(s)
      case Some((c, n)) => [c] + Unescape(s[n..])
      case None => [s[0]] + Unescape(s[1..])
  }

  lemma {:induction false} ReplaceAllConcat(a: string, b: string, c: char, rep: string)
    ensures ReplaceAll(a + b, c, rep) == ReplaceAll(a, c, rep) + ReplaceAll(b, c, rep)
  {
    if |a| > 0 {
      assert (a + b)[1..] == a[1..] + b;
      ReplaceAllConcat(a[1..], b, c, rep);
    } else {
      assert a + b == b;
    }
  }

  lemma {:induction false} ReplaceAllAbsent(s: string, c: char, rep: string)
    requires c !in s
    ensures ReplaceAll(s, c, rep) == s
  {
    if |s| > 0 {
      assert s == [s[0]] + s[1..];
      ReplaceAllAbsent(s[1..], c, rep);
    }
  }

  lemma ReplaceAllOne(x: char, c: char, rep: string)
    ensures ReplaceAll([x], c, rep) == if x == c then rep else [x]
  {
    assert [x][1..] == [];
  }

  /** A pass leaves alone a string without its character. */
  lemma PassKeeps(e: string, c: char, rep: string)
    requires c !in e
    ensures ReplaceAll(e, c, rep) == e
  {
    ReplaceAllAbsent(e, c, rep);
  }

  lemma ChainOfAmp(c: char)
    requires c == '&'
    ensures ReplaceChain([c]) == EntityFor(c)
  {
    var e := EntityFor(c);
    ReplaceAllOne(c, '&', e);
    PassKeeps(e, '<', "&lt;");
    PassKeeps(e, '>', "&gt;");
    PassKeeps(e, '"', "&quot;");
    PassKeeps(e, '\'', "&#039;");
  }

  lemma ChainOfLt(c: char)
    requires c == '<'
    ensures ReplaceChain([c]) == EntityFor(c)
  {
    var e := EntityFor(c);
    ReplaceAllOne(c, '&', "&amp;");
    ReplaceAllOne(c, '<', e);
    PassKeeps(e, '>', "&gt;");
    PassKeeps(e, '"', "&quot;");
    PassKeeps(e, '\'', "&#039;");
  }

  lemma ChainOfGt(c: char)
    requires c == '>'
    ensures ReplaceChain([c]) == EntityFor(c)
  {
    var e := EntityFor(c);
    ReplaceAllOne(c, '&', "&amp;");
    ReplaceAllOne(c, '<', "&lt;");
    ReplaceAllOne(c, '>', e);
    PassKeeps(e, '"', "&quot;");
    PassKeeps(e, '\'', "&#039;");
  }

  lemma ChainOfQuot(c: char)
    requires c == '"'
    ensures ReplaceChain([c]) == EntityFor(c)
  {
    var e := EntityFor(c);
    ReplaceAllOne(c, '&', "&amp;");
    ReplaceAllOne(c, '<', "&lt;");
    ReplaceAllOne(c, '>', "&gt;");
    ReplaceAllOne(c, '"', e);
    PassKeeps(e, '\'', "&#039;");
  }

  lemma ChainOfApos(c: char)
    requires c == '\''
    ensures ReplaceChain([c]) == EntityFor(c)
  {
    var e := EntityFor(c);
    ReplaceAllOne(c, '&', "&amp;");
    ReplaceAllOne(c, '<', "&lt;");
    ReplaceAllOne(c, '>', "&gt;");
    ReplaceAllOne(c, '"', "&quot;");
    ReplaceAllOne(c, '\'', e);
  }

  lemma ChainOfPlain(c: char)
    requires c != '&' && c != '<' && c != '>' && c != '"' && c != '\''
    ensures ReplaceChain([c]) == [c]
  {
    ReplaceAllOne(c, '&', "&amp;");
    ReplaceAllOne(c, '<', "&lt;");
    ReplaceAllOne(c, '>', "&gt;");
    ReplaceAllOne(c, '"', "&quot;");
    ReplaceAllOne(c, '\'', "&#039;");
  }

  lemma ChainOfOne(c: char)
    ensures ReplaceChain([c]) == EntityFor(c)
  {
    if c == '&' { ChainOfAmp(c); }
    else if c == '<' { ChainOfLt(c); }
    else if c == '>' { ChainOfGt(c); }
    else if c == '"' { ChainOfQuot(c); }
    else if c == '\'' { ChainOfApos(c); }
    else { ChainOfPlain(c); }
  }

  /** Because `&` is replaced first, the later passes never touch the entities
      the earlier passes wrote: the chain is a one-pass escape. */
  lemma {:induction false} ChainIsEscape(s: string)
    ensures ReplaceChain(s) == Escape(s)
  {
    if |s| > 0 {
      var c, rest := s[0], s[1..];
      assert s == [c] + rest;
      var amp := ReplaceAll([c], '&', "&amp;");
      var lt := ReplaceAll(amp, '<', "&lt;");
      var gt := ReplaceAll(lt, '>', "&gt;");
      var quot := ReplaceAll(gt, '"', "&quot;");
      var amp' := ReplaceAll(rest, '&', "&amp;");
      var lt' := ReplaceAll(amp', '<', "&lt;");
      var gt' := ReplaceAll(lt', '>', "&gt;");
      var quot' := ReplaceAll(gt', '"', "&quot;");
      ReplaceAllConcat([c], rest, '&', "&amp;");
      ReplaceAllConcat(amp, amp', '<', "&lt;");
      ReplaceAllConcat(lt, lt', '>', "&gt;");
      ReplaceAllConcat(gt, gt', '"', "&quot;");
      ReplaceAllConcat(quot, quot', '\'', "&#039;");
      ChainOfOne(c);
      ChainIsEscape(rest);
    }
  }

  lemma EntityHasNoSpecials(c: char)
    ensures NoRawSpecials(EntityFor(c))
  {
    var e := EntityFor(c);
    if IsSpecial(c) || c == '&' {
      assert e[0] == '&' && !IsSpecial(e[|e| - 1]);
    }
  }

  lemma NoRawSpecialsConcat(a: string, b: string)
    requires NoRawSpecials(a) && NoRawSpecials(b)
    ensures NoRawSpecials(a + b)
  {
    forall i | 0 <= i < |a + b| ensures !IsSpecial((a + b)[i]) {
      if i >= |a| { assert (a + b)[i] == b[i - |a|]; }
    }
  }

  lemma {:induction false} EscapeHasNoSpecials(s: string)
    ensures NoRawSpecials(Escape(s))
  {
    if |s| > 0 {
      EscapeHasNoSpecials(s[1..]);
      EntityHasNoSpecials(s[0]);
      NoRawSpecialsConcat(EntityFor(s[0]), Escape(s[1..]));
    }
  }

  /** An entity written at the front of `t` is recognised, with its length. */
  lemma EntityAtFront(c: char, rest: string)
    ensures var e := EntityFor(c);
      EntityAt(e + rest) == if |e| == 1 then (if c == '&' then EntityAt([c] + rest) else None) else Some((c, |e|))
  {
    var e := EntityFor(c);
    var t := e + rest;
    assert forall i :: 0 <= i < |e| ==> t[i] == e[i];
  }

  lemma UnescapeEntity(c: char, rest: string)
    ensures Unescape(EntityFor(c) + rest) == [c] + Unescape(rest)
  {
    var e := EntityFor(c);
    var t := e + rest;
    assert t[|e|..] == rest;
    EntityAtFront(c, rest);
    if |e| == 1 {
      assert e == [c] && c != '&';
      assert EntityAt(t) == None;
      assert t[1..] == rest;
    } else {
      assert EntityAt(t) == Some((c, |e|));
    }
  }

  /** Decoding the entities gives back the text that was escaped. */
  lemma {:induction false} UnescapeEscape(s: string)
    ensures Unescape(Escape(s)) == s
  {
    if |s| > 0 {
      UnescapeEntity(s[0], Escape(s[1..]));
      UnescapeEscape(s[1..]);
      assert s == [s[0]] + s[1..];
    }
  }
}
