/**
  The two commands of the command handler, recognised by comparing the lower-cased text
  with `!antilink on` and `!antilink off`.
*/
module Commands {
  import opened Wrappers
  import LinkClassifier

  const EnableCommand: string := "!antilink on"
  const DisableCommand: string := "!antilink off"

  /**
    `toLowerCase` as far as a comparison with an ASCII command can tell: ASCII capitals
    and the KELVIN SIGN (U+212A) lower-case to ASCII letters; the lower-case form of
    every other character is either the character itself or not ASCII, so it is kept.
    One character lengthens in JavaScript: U+0130 becomes `i` followed by U+0307. Keeping
    it as one character gives the same answer, since U+0307 is not ASCII either.
  */
  function LowerChar(c: char): (d: char)
    ensures 'a' <= d <= 'z' <==> ('a' <= c <= 'z' || 'A' <= c <= 'Z' || c == '\U{212A}')
    ensures 'A' <= c <= 'Z' ==> d as int == c as int + 32
    ensures c == '\U{212A}' ==> d == 'k'
    ensures !('A' <= c <= 'Z') && c != '\U{212A}' ==> d == c
    ensures d == '.' <==> c == '.'
    ensures d == ':' <==> c == ':'
  {
    if 'A' <= c <= 'Z' then (c as int + 32) as char
    else if c == '\U{212A}' then 'k'
    else c
  }

  function Lower(text: string): (r: string)
    ensures |r| == |text|
    ensures forall k | 0 <= k < |text| :: r[k] == LowerChar(text[k])
  {
    seq(|text|, k requires 0 <= k < |text| => LowerChar(text[k]))
  }

  /** The value a command text asks for, `None` for any other text. */
  function Toggle(text: string): (r: Option<bool>)
    ensures r == Some(true) <==> Lower(text) == EnableCommand
    ensures r == Some(false) <==> Lower(text) == DisableCommand
  {
    if Lower(text) == EnableCommand then Some(true)
    else if Lower(text) == DisableCommand then Some(false)
    else None
  }

  /** Matching ignores case: the mixed-case spellings are the same command. */
  lemma ToggleIgnoresCase()
    ensures Toggle("!AntiLink ON") == Some(true)
    ensures Toggle("!ANTILINK off") == Some(false)
    ensures Toggle("!antilin\U{212A} on") == Some(true)
  {
    assert Lower("!AntiLink ON") == EnableCommand;
    assert Lower("!ANTILINK off") == DisableCommand;
    assert Lower("!antilin\U{212A} on") == EnableCommand;
  }

  /** The match is exact: surrounding text or spaces make it no command. */
  lemma ToggleIsExact()
    ensures Toggle(" !antilink on") == None
    ensures Toggle("!antilink on please") == None
    ensures Toggle("!antilink") == None
  {
    assert Lower(" !antilink on")[0] == ' ';
    assert |Lower("!antilink on please")| == 19;
    assert |Lower("!antilink")| == 9;
  }

  /** No command text can be a link: neither contains a dot or a colon. */
  lemma CommandIsNoLink(text: string)
    requires Toggle(text).Some?
    ensures !LinkClassifier.ContainsLink(text)
  {
    var cmd := Lower(text);
    assert cmd == EnableCommand || cmd == DisableCommand;
    forall k | 0 <= k < |text| ensures text[k] != '.' && text[k] != ':' {
      assert cmd[k] == LowerChar(text[k]);
      assert cmd[k] != '.' && cmd[k] != ':';
    }
    LinkClassifier.NoDotNoColonNoLink(text);
  }
}
