/**
 * The referral argument of the `/start` command in bot/bot.py: the text is
 * split on whitespace, the second token is kept as the referrer id when it
 * consists of digits only, and the mini-app link gets a `?ref=` suffix when a
 * referrer id was found.
 */
module Referral {
  import opened Optional

  /** The mini-app address the bot links to. */
  const AppUrl := "https://твой-нгрок-фронтенд.app"
  const RefQuery := "?ref="

  /** The characters Python's `str.split()` with no separator splits on. */
  predicate IsSpace(c: char) {
    c == ' ' || ('\t' <= c <= '\r') || ('\U{1C}' <= c <= '\U{1F}')
    || c == '\U{85}' || c == '\U{A0}' || c == '\U{1680}' || ('\U{2000}' <= c <= '\U{200A}')
    || c == '\U{2028}' || c == '\U{2029}' || c == '\U{202F}' || c == '\U{205F}' || c == '\U{3000}'
  }

  predicate IsDigit(c: char) {
    '0' <= c <= '9'
  }

  /** `str.isdigit()`: at least one character, and every character a digit. */
  predicate IsDigits(s: string) {
    s != [] && forall i | 0 <= i < |s| :: IsDigit(s[i])
  }

  /** A token as `split()` produces it: not empty, no whitespace. */
  predicate IsToken(s: string) {
    s != [] && forall i | 0 <= i < |s| :: !IsSpace(s[i])
  }

  /** Length of the run of non-space characters at the start of `s`. */
  function TokenLength(s: string): (n: nat)
    ensures n <= |s|
    ensures forall i | 0 <= i < n :: !IsSpace(s[i])
    ensures n < |s| ==> IsSpace(s[n])
  {
    if s == [] || IsSpace(s[0]) then 0 else 1 + TokenLength(s[1..])
  }

  /** `text.split()`: the maximal runs of non-whitespace characters, in order. */
  function Split(text: string): (tokens: seq<string>)
    ensures forall k | 0 <= k < |tokens| :: IsToken(tokens[k])
    decreases |text|
  {
    if text == [] then []
    else if IsSpace(text[0]) then Split(text[1..])
    else
      var n := TokenLength(text);
      [text[..n]] + Split(text[n..])
  }

  /** The tokens joined by single spaces. */
  function Join(tokens: seq<string>): string {
    if |tokens| == 0 then []
    else if |tokens| == 1 then tokens[0]
    else tokens[0] + " " + Join(tokens[1..])
  }

  /**
   * `args[1] if len(args) > 1 and args[1].isdigit() else None`: the referrer
   * id is the second token, kept exactly when it consists of digits.
   */
  function ParseRef(text: string): (r: Option<string>)
    ensures r.Some? <==> |Split(text)| > 1 && IsDigits(Split(text)[1])
    ensures r.Some? ==> r.value == Split(text)[1] && IsDigits(r.value)
  {
    var args := Split(text);
    if |args| > 1 && IsDigits(args[1]) then Some(args[1]) else None
  }

  /** `app_url`, with `?ref=<id>` appended when the referrer id is a non-empty string. */
  function LaunchUrl(refId: Option<string>): (url: string)
    ensures |url| >= |AppUrl| && url[..|AppUrl|] == AppUrl
    ensures RefFromUrl(url) == if refId.Some? && refId.value != [] then refId else None
  {
    var url := if refId.Some? && refId.value != [] then AppUrl + RefQuery + refId.value else AppUrl;
    assert RefFromUrl(url) == if refId.Some? && refId.value != [] then refId else None by {
      var n := |AppUrl + RefQuery|;
      if refId.Some? && refId.value != [] {
        assert url[..n] == AppUrl + RefQuery && url[n..] == refId.value;
        assert url[..|AppUrl|] == AppUrl;
      } else {
        assert |url| == |AppUrl| < n;
      }
    }
    url
  }

  /** Reads the referrer id back out of a link built by `LaunchUrl`. */
  function RefFromUrl(url: string): Option<string> {
    var n := |AppUrl + RefQuery|;
    if |url| > n && url[..n] == AppUrl + RefQuery then Some(url[n..]) else None
  }

  /** A run of whitespace characters, possibly empty. */
  predicate IsSpaces(s: string) {
    forall i | 0 <= i < |s| :: IsSpace(s[i])
  }

  /** A token followed by a space and more text splits off as that token. */
  lemma {:induction false} TokenLengthOfToken(w: string, rest: string)
    requires IsToken(w) && (rest == [] || IsSpace(rest[0]))
    ensures TokenLength(w + rest) == |w|
    decreases |w|
  {
    var s := w + rest;
    assert s[0] == w[0];
    if |w| > 1 {
      assert s[1..] == w[1..] + rest;
      TokenLengthOfToken(w[1..], rest);
    } else {
      assert s[1..] == rest;
    }
  }

  /** Splitting tokens joined by spaces gives the tokens back. */
  lemma {:induction false} SplitJoin(tokens: seq<string>)
    requires forall k | 0 <= k < |tokens| :: IsToken(tokens[k])
    ensures Split(Join(tokens)) == tokens
  {
    if |tokens| == 1 {
      var w := tokens[0];
      TokenLengthOfToken(w, []);
      assert w + [] == w && w[|w|..] == [];
      assert Split(w) == [w[..|w|]] + Split(w[|w|..]);
    } else if |tokens| > 1 {
      var w := tokens[0];
      var rest := " " + Join(tokens[1..]);
      var s := Join(tokens);
      assert s == w + rest;
      TokenLengthOfToken(w, rest);
      assert s[..|w|] == w && s[|w|..] == rest;
      assert Split(s) == [w] + Split(rest);
      assert rest[1..] == Join(tokens[1..]);
      SplitJoin(tokens[1..]);
      assert tokens == [w] + tokens[1..];
    }
  }

  /** Whitespace in front of a text adds no tokens. */
  lemma {:induction false} SplitSkipsSpaces(ws: string, text: string)
    requires IsSpaces(ws)
    ensures Split(ws + text) == Split(text)
    decreases |ws|
  {
    if ws != [] {
      assert (ws + text)[0] == ws[0] && IsSpace(ws[0]);
      assert (ws + text)[1..] == ws[1..] + text;
      assert IsSpaces(ws[1..]) by {
        forall i | 0 <= i < |ws| - 1 ensures IsSpace(ws[1..][i]) {
          assert ws[1..][i] == ws[i + 1];
        }
      }
      SplitSkipsSpaces(ws[1..], text);
      assert Split(ws + text) == Split(ws[1..] + text);
    } else {
      assert ws + text == text;
    }
  }

  /** A token ended by whitespace or by the end of the text is the first token. */
  lemma SplitTakesToken(w: string, rest: string)
    requires IsToken(w) && (rest == [] || IsSpace(rest[0]))
    ensures Split(w + rest) == [w] + Split(rest)
  {
    var s := w + rest;
    TokenLengthOfToken(w, rest);
    assert s[0] == w[0];
    assert s[..|w|] == w && s[|w|..] == rest;
  }

  /**
   * `/start <arg> ...`, with any whitespace around and between the tokens:
   * the referrer id is `arg` itself, as a string, when it is all digits, and
   * nothing otherwise; whatever follows `arg` plays no part.
   */
  lemma RefOfStartCommand(ws0: string, command: string, ws1: string, arg: string, rest: string)
    requires IsSpaces(ws0) && IsToken(command) && IsSpaces(ws1) && ws1 != [] && IsToken(arg)
    requires rest == [] || IsSpace(rest[0])
    ensures ParseRef(ws0 + command + ws1 + arg + rest) == if IsDigits(arg) then Some(arg) else None
  {
    var tail := arg + rest;
    var afterCommand := ws1 + tail;
    var text := ws0 + command + ws1 + arg + rest;
    assert text == ws0 + (command + afterCommand);
    SplitSkipsSpaces(ws0, command + afterCommand);
    assert afterCommand[0] == ws1[0];
    SplitTakesToken(command, afterCommand);
    SplitSkipsSpaces(ws1, tail);
    SplitTakesToken(arg, rest);
    var tokens := Split(text);
    assert tokens == [command] + ([arg] + Split(rest));
    assert |tokens| > 1 && tokens[1] == arg;
  }

  /** `/start` alone, an empty text or only whitespace carries no referrer id. */
  lemma NoRefWithoutArgument(ws0: string, command: string, ws1: string)
    requires IsSpaces(ws0) && IsSpaces(ws1) && (command == [] || IsToken(command))
    ensures ParseRef(ws0 + command + ws1) == None
  {
    var text := ws0 + command + ws1;
    assert text == ws0 + (command + ws1);
    SplitSkipsSpaces(ws0, command + ws1);
    SplitSkipsSpaces(ws1, []);
    assert ws1 + [] == ws1;
    if command == [] {
      assert command + ws1 == ws1;
    } else {
      SplitTakesToken(command, ws1);
    }
    assert |Split(text)| < 2;
  }

  /**
   * The link built from a parsed referrer id: the bare address without one,
   * otherwise the address with `?ref=` and the id, which can be read back.
   */
  lemma LaunchUrlCarriesRef(text: string)
    ensures ParseRef(text).None? ==> LaunchUrl(ParseRef(text)) == AppUrl
    ensures ParseRef(text).Some? ==> LaunchUrl(ParseRef(text)) == AppUrl + RefQuery + ParseRef(text).value
    ensures RefFromUrl(LaunchUrl(ParseRef(text))) == ParseRef(text)
  {
  }
}
