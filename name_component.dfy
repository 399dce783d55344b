/**
 * getNameComponent: the display text of a category, built from its canonical name
 * by splitting it on '_' and emitting each word as its first character followed by
 * the rest of the word in lower case, with a space after every word, and trimming
 * the result.
 *
 * The Java library calls involved are modelled as functions: String.split with a
 * one-character pattern (Split), String.toLowerCase(Locale.ROOT) restricted to ASCII
 * letters (LowerRoot) and String.trim (Trim). The text component built from the
 * string is the string itself.
 */
module NameComponent {
  import opened Wrappers
  import opened NameTable

  /** What goes wrong when a word is empty: charAt(0) throws StringIndexOutOfBoundsException. */
  datatype DisplayError = EmptyWord

  /** The pieces of s between occurrences of sep, empty pieces included. */
  function Fields(s: string, sep: char): (r: seq<string>)
    ensures |r| >= 1
    ensures forall i :: 0 <= i < |r| ==> sep !in r[i]
  {
    if |s| == 0 then [""]
    else
      var rest := Fields(s[1..], sep);
      if s[0] == sep then [""] + rest
      else [[s[0]] + rest[0]] + rest[1..]
  }

  /** The words of ws with sep between each two neighbours. */
  function Join(ws: seq<string>, sep: char): string
    requires |ws| >= 1
  {
    if |ws| == 1 then ws[0] else ws[0] + [sep] + Join(ws[1..], sep)
  }

  /** ws without its trailing empty words. */
  function DropTrailingEmpty(ws: seq<string>): (r: seq<string>)
    ensures |r| <= |ws| && r == ws[..|r|]
    ensures |r| > 0 ==> r[|r| - 1] != ""
    ensures forall i :: |r| <= i < |ws| ==> ws[i] == ""
  {
    if |ws| == 0 then []
    else if ws[|ws| - 1] == "" then DropTrailingEmpty(ws[..|ws| - 1])
    else ws
  }

  /**
   * String.split on a pattern that matches exactly the character sep: the whole
   * string when sep does not occur in it, and otherwise the fields with the
   * trailing empty ones removed.
   */
  function Split(s: string, sep: char): (r: seq<string>)
    ensures sep !in s ==> r == [s]
    ensures sep in s && |r| > 0 ==> r[|r| - 1] != ""
    ensures forall i :: 0 <= i < |r| ==> sep !in r[i]
  {
    if sep !in s then [s] else DropTrailingEmpty(Fields(s, sep))
  }

  /** Character.toLowerCase in the root locale, on the ASCII letters. */
  function LowerChar(c: char): (r: char)
    ensures 'A' <= c <= 'Z' ==> r as int == c as int + 32
    ensures !('A' <= c <= 'Z') ==> r == c
  {
    if 'A' <= c <= 'Z' then (c as int + 32) as char else c
  }

  /** String.toLowerCase(Locale.ROOT), character by character. */
  function LowerRoot(s: string): (r: string)
    ensures |r| == |s|
    ensures forall i :: 0 <= i < |s| ==> r[i] == LowerChar(s[i])
  {
    seq(|s|, i requires 0 <= i < |s| => LowerChar(s[i]))
  }

  /** s without its leading characters at or below the space character. */
  function TrimStart(s: string): (r: string)
    ensures |r| <= |s| && r == s[|s| - |r|..]
    ensures forall i :: 0 <= i < |s| - |r| ==> s[i] <= ' '
    ensures |r| > 0 ==> r[0] > ' '
  {
    if |s| > 0 && s[0] <= ' ' then TrimStart(s[1..]) else s
  }

  /** s without its trailing characters at or below the space character. */
  function TrimEnd(s: string): (r: string)
    ensures |r| <= |s| && r == s[..|r|]
    ensures forall i :: |r| <= i < |s| ==> s[i] <= ' '
    ensures |r| > 0 ==> r[|r| - 1] > ' '
  {
    if |s| > 0 && s[|s| - 1] <= ' ' then TrimEnd(s[..|s| - 1]) else s
  }

  /** String.trim: leading, then trailing, characters at or below the space character removed. */
  function Trim(s: string): (r: string)
    ensures |r| <= |s|
    ensures |r| > 0 ==> r[0] > ' ' && r[|r| - 1] > ' '
    ensures (forall i :: 0 <= i < |s| ==> s[i] <= ' ') ==> r == ""
    ensures |s| > 0 && s[0] > ' ' && s[|s| - 1] > ' ' ==> r == s
  {
    TrimEnd(TrimStart(s))
  }

  /** A non-empty word as it is displayed: first character kept, the rest lower-cased. */
  function DisplayWord(w: string): string
    requires |w| >= 1
  {
    [w[0]] + LowerRoot(w[1..])
  }

  /** Each of the non-empty words ws as it is displayed. */
  function DisplayWords(ws: seq<string>): (r: seq<string>)
    requires forall i :: 0 <= i < |ws| ==> |ws[i]| >= 1
    ensures |r| == |ws|
    ensures forall i :: 0 <= i < |ws| ==> r[i] == DisplayWord(ws[i])
  {
    seq(|ws|, i requires 0 <= i < |ws| => DisplayWord(ws[i]))
  }

  /** What the builder holds after the words ws have been appended, each followed by a space. */
  function Rendered(ws: seq<string>): string
    requires forall i :: 0 <= i < |ws| ==> |ws[i]| >= 1
  {
    if |ws| == 0 then ""
    else Rendered(ws[..|ws| - 1]) + DisplayWord(ws[|ws| - 1]) + " "
  }

  /** The display text of a canonical name, or the failure of charAt(0) on the first empty word. */
  function Display(name: string): Result<string, DisplayError>
  {
    var ws := Split(name, '_');
    if exists i :: 0 <= i < |ws| && ws[i] == "" then Failure(EmptyWord)
    else Success(Trim(Rendered(ws)))
  }

  /** getNameComponent: the display text of the category's canonical name. */
  method GetNameComponent(t: SoundType) returns (r: Result<string, DisplayError>)
    ensures r == Display(GetName(t))
  {
    r := DisplayText(GetName(t));
  }

  /** The body of getNameComponent after getName: the loop appending the split words to a StringBuilder. */
  method DisplayText(name: string) returns (r: Result<string, DisplayError>)
    ensures r == Display(name)
  {
    var split := Split(name, '_');
    var builder: string := "";
    var i := 0;
    while i < |split|
      invariant 0 <= i <= |split|
      invariant forall j :: 0 <= j < i ==> |split[j]| >= 1
      invariant builder == Rendered(split[..i])
    {
      var s := split[i];
      if |s| == 0 {
        return Failure(EmptyWord);
      }
      RenderedStep(split, i);
      builder := builder + [s[0]];
      builder := builder + LowerRoot(s[1..]);
      builder := builder + " ";
      i := i + 1;
    }
    assert split[..i] == split;
    r := Success(Trim(builder));
  }

  /** Appending the next non-empty word to the builder renders one more word. */
  lemma RenderedStep(ws: seq<string>, i: nat)
    requires i < |ws|
    requires forall j :: 0 <= j <= i ==> |ws[j]| >= 1
    ensures Rendered(ws[..i + 1]) == Rendered(ws[..i]) + [ws[i][0]] + LowerRoot(ws[i][1..]) + " "
  {
    assert ws[..i + 1][..i] == ws[..i];
  }
}
