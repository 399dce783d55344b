/**
 * What getNameComponent makes of a canonical name: the words between the
 * underscores, each displayed as its first character and its lower-cased rest,
 * joined by single spaces; and the cases where a word is empty and charAt throws.
 */
module NameComponentLaws {
  import opened Wrappers
  import opened NameTable
  import opened NameComponent

  /** Joining the fields of s with the separator gives s back. */
  lemma {:induction false} JoinFields(s: string, sep: char)
    ensures Join(Fields(s, sep), sep) == s
    decreases |s|
  {
    if |s| > 0 {
      var rest := Fields(s[1..], sep);
      JoinFields(s[1..], sep);
      if s[0] == sep {
        assert Fields(s, sep) == [""] + rest;
        assert ([""] + rest)[1..] == rest;
      } else if |rest| > 1 {
        assert Fields(s, sep)[1..] == rest[1..];
        assert [s[0]] + s[1..] == s;
      }
    }
  }

  /** A piece without the separator is a single field. */
  lemma {:induction false} FieldsOfWord(w: string, sep: char)
    requires sep !in w
    ensures Fields(w, sep) == [w]
    decreases |w|
  {
    if |w| > 0 {
      FieldsOfWord(w[1..], sep);
      assert [w[0]] + w[1..] == w;
    }
  }

  /** A separator-free piece followed by the separator splits off as the first field. */
  lemma {:induction false} FieldsOfPrefix(w: string, sep: char, rest: string)
    requires sep !in w
    ensures Fields(w + [sep] + rest, sep) == [w] + Fields(rest, sep)
    decreases |w|
  {
    var s := w + [sep] + rest;
    if |w| == 0 {
      assert s[1..] == rest;
    } else {
      assert s[1..] == w[1..] + [sep] + rest;
      FieldsOfPrefix(w[1..], sep, rest);
      assert [w[0]] + w[1..] == w;
    }
  }

  /** Splitting into fields undoes joining words that do not contain the separator. */
  lemma {:induction false} FieldsOfJoin(ws: seq<string>, sep: char)
    requires |ws| >= 1
    requires forall i :: 0 <= i < |ws| ==> sep !in ws[i]
    ensures Fields(Join(ws, sep), sep) == ws
    decreases |ws|
  {
    if |ws| == 1 {
      FieldsOfWord(ws[0], sep);
    } else {
      FieldsOfPrefix(ws[0], sep, Join(ws[1..], sep));
      FieldsOfJoin(ws[1..], sep);
      assert [ws[0]] + ws[1..] == ws;
    }
  }

  /** The separator occurs in a join exactly when there are at least two words. */
  lemma SeparatorInJoin(ws: seq<string>, sep: char)
    requires |ws| >= 1
    requires forall i :: 0 <= i < |ws| ==> sep !in ws[i]
    ensures sep in Join(ws, sep) <==> |ws| >= 2
  {
    if |ws| >= 2 {
      assert Join(ws, sep)[|ws[0]|] == sep;
    }
  }

  /**
   * String.split undoes the join of non-empty words without the separator: the
   * words of a canonical name come back in order.
   */
  lemma SplitOfJoin(ws: seq<string>, sep: char)
    requires |ws| >= 1
    requires forall i :: 0 <= i < |ws| ==> sep !in ws[i] && |ws[i]| >= 1
    ensures Split(Join(ws, sep), sep) == ws
  {
    SeparatorInJoin(ws, sep);
    if |ws| >= 2 {
      FieldsOfJoin(ws, sep);
    }
  }

  /** The separator at the end of a non-empty name changes nothing: String.split drops trailing empty fields. */
  lemma TrailingSeparatorIgnored(name: string, sep: char)
    requires |name| >= 1
    ensures Split(name + [sep], sep) == Split(name, sep)
  {
    FieldsOfTrailing(name, sep);
    var fs := Fields(name, sep);
    assert (fs + [""])[..|fs|] == fs;
    if sep !in name {
      FieldsOfWord(name, sep);
    }
  }

  /** A separator at the end adds one empty field. */
  lemma {:induction false} FieldsOfTrailing(s: string, sep: char)
    ensures Fields(s + [sep], sep) == Fields(s, sep) + [""]
    decreases |s|
  {
    if |s| == 0 {
      var one: string := [sep];
      assert one[1..] == "";
    } else {
      assert (s + [sep])[1..] == s[1..] + [sep];
      FieldsOfTrailing(s[1..], sep);
    }
  }

  /** Appending a last word to a join puts one separator before it. */
  lemma {:induction false} JoinSnoc(vs: seq<string>, v: string, sep: char)
    requires |vs| >= 1
    ensures Join(vs + [v], sep) == Join(vs, sep) + [sep] + v
    decreases |vs|
  {
    if |vs| > 1 {
      assert (vs + [v])[1..] == vs[1..] + [v];
      JoinSnoc(vs[1..], v, sep);
    }
  }

  /** The builder after a non-empty run of words: their displays joined by spaces, with one more space. */
  lemma {:induction false} RenderedJoin(ws: seq<string>)
    requires |ws| >= 1
    requires forall i :: 0 <= i < |ws| ==> |ws[i]| >= 1
    ensures Rendered(ws) == Join(DisplayWords(ws), ' ') + " "
    decreases |ws|
  {
    var n := |ws|;
    if n > 1 {
      var front := ws[..n - 1];
      RenderedJoin(front);
      assert DisplayWords(ws) == DisplayWords(front) + [DisplayWord(ws[n - 1])];
      JoinSnoc(DisplayWords(front), DisplayWord(ws[n - 1]), ' ');
    } else {
      assert ws[..0] == [];
    }
  }

  /** The first character of a join is that of its first word. */
  lemma JoinFirst(vs: seq<string>, sep: char)
    requires |vs| >= 1 && |vs[0]| >= 1
    ensures |Join(vs, sep)| >= 1 && Join(vs, sep)[0] == vs[0][0]
  {
  }

  /** The last character of a join is that of its last word. */
  lemma {:induction false} JoinLast(vs: seq<string>, sep: char)
    requires |vs| >= 1 && |vs[|vs| - 1]| >= 1
    ensures |Join(vs, sep)| >= 1
    ensures Join(vs, sep)[|Join(vs, sep)| - 1] == vs[|vs| - 1][|vs[|vs| - 1]| - 1]
    decreases |vs|
  {
    if |vs| > 1 {
      JoinLast(vs[1..], sep);
    }
  }

  /** trim removes only the space the builder leaves after the last word when the text starts and ends visibly. */
  lemma TrimLastSpace(x: string)
    requires |x| >= 1 && x[0] > ' ' && x[|x| - 1] > ' '
    ensures Trim(x + " ") == x
  {
    var y := x + " ";
    assert TrimStart(y) == y;
    assert y[..|y| - 1] == x;
    assert TrimEnd(y) == TrimEnd(x);
  }

  /**
   * The general rule: for non-empty words free of the separator and of characters at
   * or below the space, the display of their underscore join is their displays
   * joined by single spaces, with no trailing space.
   */
  lemma DisplayOfJoin(ws: seq<string>)
    requires |ws| >= 1
    requires forall i :: 0 <= i < |ws| ==> |ws[i]| >= 1
    requires forall i, j :: 0 <= i < |ws| && 0 <= j < |ws[i]| ==> ws[i][j] != '_' && ws[i][j] > ' '
    ensures Display(Join(ws, '_')) == Success(Join(DisplayWords(ws), ' '))
  {
    SplitOfJoin(ws, '_');
    DisplayOfWords(Join(ws, '_'), ws);
    TrimRendered(ws);
  }

  /** What CanonicalFrom(s, i) says position by position. */
  lemma {:induction false} CanonicalFromFacts(s: string, i: nat)
    requires 1 <= i <= |s| && CanonicalFrom(s, i)
    ensures forall j :: i <= j < |s| ==> 'A' <= s[j] <= 'Z' || s[j] == '_'
    ensures forall j :: i <= j < |s| && s[j] == '_' ==> s[j - 1] != '_'
    ensures 'A' <= s[|s| - 1] <= 'Z'
    decreases |s| - i
  {
    if i < |s| {
      CanonicalFromFacts(s, i + 1);
    }
  }

  /**
   * The fields of a string of letters and single underscores that does not end in
   * an underscore: all but the first are non-empty, the first is empty exactly when
   * the string starts with the underscore, and every field holds only letters.
   */
  lemma {:induction false} FieldsOfCanonical(s: string)
    requires forall j :: 0 <= j < |s| ==> 'A' <= s[j] <= 'Z' || s[j] == '_'
    requires forall j :: 0 < j < |s| && s[j] == '_' ==> s[j - 1] != '_'
    requires |s| > 0 ==> s[|s| - 1] != '_'
    ensures forall i :: 1 <= i < |Fields(s, '_')| ==> Fields(s, '_')[i] != ""
    ensures Fields(s, '_')[0] != "" <==> |s| > 0 && s[0] != '_'
    ensures forall i, j :: 0 <= i < |Fields(s, '_')| && 0 <= j < |Fields(s, '_')[i]| ==>
      'A' <= Fields(s, '_')[i][j] <= 'Z'
    decreases |s|
  {
    if |s| > 0 {
      var tail := s[1..];
      assert forall j :: 0 <= j < |tail| ==> tail[j] == s[j + 1];
      FieldsOfCanonical(tail);
      var rest := Fields(tail, '_');
      if s[0] == '_' {
        assert |s| >= 2 && s[1] != '_';
        assert Fields(s, '_') == [""] + rest;
      } else {
        var first := [s[0]] + rest[0];
        assert Fields(s, '_') == [first] + rest[1..];
        assert forall j :: 0 <= j < |first| ==> 'A' <= first[j] <= 'Z' by {
          forall j | 0 <= j < |first|
            ensures 'A' <= first[j] <= 'Z'
          {
            if j > 0 {
              assert first[j] == rest[0][j - 1];
            }
          }
        }
      }
    }
  }

  /** The underscore fields of a canonical name are non-empty words of upper-case letters. */
  lemma WordsOfCanonical(name: string)
    requires IsCanonicalName(name)
    ensures forall i :: 0 <= i < |Fields(name, '_')| ==> |Fields(name, '_')[i]| >= 1
    ensures forall i, j :: 0 <= i < |Fields(name, '_')| && 0 <= j < |Fields(name, '_')[i]| ==>
      Fields(name, '_')[i][j] != '_' && Fields(name, '_')[i][j] > ' '
  {
    CanonicalFromFacts(name, 1);
    FieldsOfCanonical(name);
  }

  /**
   * Every canonical name displays without failure: its words are its underscore
   * fields, and the text is their displays joined by single spaces.
   */
  lemma DisplayOfCanonical(name: string)
    requires IsCanonicalName(name)
    ensures Split(name, '_') == Fields(name, '_')
    ensures forall i :: 0 <= i < |Split(name, '_')| ==> |Split(name, '_')[i]| >= 1
    ensures Display(name) == Success(Join(DisplayWords(Split(name, '_')), ' '))
  {
    var ws := Fields(name, '_');
    WordsOfCanonical(name);
    JoinFields(name, '_');
    assert Join(ws, '_') == name;
    DisplayOfJoin(ws);
    SplitOfJoin(ws, '_');
  }

  /** getNameComponent succeeds for every category: no word of a table name is empty. */
  lemma AllNamesDisplay(t: SoundType)
    ensures Display(GetName(t)).Success?
  {
    CanonicalName(t);
    DisplayOfCanonical(GetName(t));
  }

  /** A name that splits into non-empty words displays as the trimmed builder after them. */
  lemma DisplayOfWords(name: string, ws: seq<string>)
    requires Split(name, '_') == ws
    requires forall i :: 0 <= i < |ws| ==> |ws[i]| >= 1
    ensures Display(name) == Success(Trim(Rendered(ws)))
  {
  }

  /** A visible word displays with the same first character and a visible last character. */
  lemma DisplayWordEnds(w: string)
    requires |w| >= 1
    requires forall j :: 0 <= j < |w| ==> w[j] > ' '
    ensures |DisplayWord(w)| == |w|
    ensures DisplayWord(w)[0] == w[0]
    ensures DisplayWord(w)[|w| - 1] > ' '
  {
    if |w| > 1 {
      assert DisplayWord(w)[|w| - 1] == LowerChar(w[|w| - 1]);
    }
  }

  /** Trimming the builder after non-empty visible words leaves their displays joined by spaces. */
  lemma TrimRendered(ws: seq<string>)
    requires |ws| >= 1
    requires forall i :: 0 <= i < |ws| ==> |ws[i]| >= 1
    requires forall i, j :: 0 <= i < |ws| && 0 <= j < |ws[i]| ==> ws[i][j] > ' '
    ensures Trim(Rendered(ws)) == Join(DisplayWords(ws), ' ')
  {
    RenderedJoin(ws);
    var ds := DisplayWords(ws);
    DisplayWordEnds(ws[0]);
    DisplayWordEnds(ws[|ws| - 1]);
    JoinFirst(ds, ' ');
    JoinLast(ds, ' ');
    TrimLastSpace(Join(ds, ' '));
  }

  /** An empty word before the last non-empty one makes charAt(0) throw. */
  lemma DisplayOfEmptyWord(ws: seq<string>, k: nat)
    requires |ws| >= 2 && k < |ws| && ws[k] == ""
    requires |ws[|ws| - 1]| >= 1
    requires forall i :: 0 <= i < |ws| ==> '_' !in ws[i]
    ensures Display(Join(ws, '_')) == Failure(EmptyWord)
  {
    SeparatorInJoin(ws, '_');
    FieldsOfJoin(ws, '_');
  }

  /** The empty name fails: String.split gives it back as its only, empty, word. */
  lemma DisplayOfEmptyName()
    ensures Display("") == Failure(EmptyWord)
  {
    assert Split("", '_')[0] == "";
  }

  /** A join of three words. */
  lemma Join3(a: string, b: string, c: string, sep: char)
    ensures Join([a, b, c], sep) == a + [sep] + b + [sep] + c
  {
    assert [a, b, c][1..] == [b, c];
    assert [b, c][1..] == [c];
    assert Join([b, c], sep) == b + [sep] + c;
    assert Join([a, b, c], sep) == a + [sep] + Join([b, c], sep);
  }

  /** The word NETHER as it is displayed. */
  lemma DisplayWordNether()
    ensures DisplayWord("NETHER") == "Nether"
  {
    assert "NETHER"[1..] == "ETHER";
    assert LowerRoot("ETHER")[0] == 'e';
    assert LowerRoot("ETHER")[1] == 't';
    assert LowerRoot("ETHER")[2] == 'h';
    assert LowerRoot("ETHER")[3] == 'e';
    assert LowerRoot("ETHER")[4] == 'r';
  }

  /** The word GOLD as it is displayed. */
  lemma DisplayWordGold()
    ensures DisplayWord("GOLD") == "Gold"
  {
    assert "GOLD"[1..] == "OLD";
    assert LowerRoot("OLD")[0] == 'o';
    assert LowerRoot("OLD")[1] == 'l';
    assert LowerRoot("OLD")[2] == 'd';
  }

  /** The word ORE as it is displayed. */
  lemma DisplayWordOre()
    ensures DisplayWord("ORE") == "Ore"
  {
    assert "ORE"[1..] == "RE";
    assert LowerRoot("RE")[0] == 'r';
    assert LowerRoot("RE")[1] == 'e';
  }

  /** The word STONE as it is displayed. */
  lemma DisplayWordStone()
    ensures DisplayWord("STONE") == "Stone"
  {
    assert "STONE"[1..] == "TONE";
    assert LowerRoot("TONE")[0] == 't';
    assert LowerRoot("TONE")[1] == 'o';
    assert LowerRoot("TONE")[2] == 'n';
    assert LowerRoot("TONE")[3] == 'e';
  }

  /** The display text of the name NETHER_GOLD_ORE. */
  lemma DisplayOfNetherGoldOreText()
    ensures Display("NETHER_GOLD_ORE") == Success("Nether Gold Ore")
  {
    var ws := ["NETHER", "GOLD", "ORE"];
    WordsOfNetherGoldOre();
    DisplayOfJoin(ws);
    DisplayWordsOfNetherGoldOre();
    TextOfNetherGoldOre();
  }

  /** NETHER_GOLD_ORE is the underscore join of its three words. */
  lemma WordsOfNetherGoldOre()
    ensures Join(["NETHER", "GOLD", "ORE"], '_') == "NETHER_GOLD_ORE"
  {
    Join3("NETHER", "GOLD", "ORE", '_');
    assert "NETHER" + "_" + "GOLD" + "_" + "ORE" == "NETHER_GOLD_ORE";
  }

  /** The displayed words of NETHER_GOLD_ORE. */
  lemma DisplayWordsOfNetherGoldOre()
    ensures DisplayWords(["NETHER", "GOLD", "ORE"]) == ["Nether", "Gold", "Ore"]
  {
    DisplayWordNether();
    DisplayWordGold();
    DisplayWordOre();
  }

  /** The displayed words of NETHER_GOLD_ORE joined by single spaces. */
  lemma TextOfNetherGoldOre()
    ensures Join(["Nether", "Gold", "Ore"], ' ') == "Nether Gold Ore"
  {
    Join3("Nether", "Gold", "Ore", ' ');
    assert "Nether" + " " + "Gold" + " " + "Ore" == "Nether Gold Ore";
  }

  /** The display of NETHER_GOLD_ORE. */
  lemma DisplayNetherGoldOre()
    ensures Display(GetName(NETHER_GOLD_ORE)) == Success("Nether Gold Ore")
  {
    assert GetName(NETHER_GOLD_ORE) == "NETHER_GOLD_ORE";
    DisplayOfNetherGoldOreText();
  }

  /** The display text of the name STONE. */
  lemma DisplayOfStoneText()
    ensures Display("STONE") == Success("Stone")
  {
    var ws := ["STONE"];
    WordsOfStone();
    DisplayOfJoin(ws);
    DisplayWordsOfStone();
  }

  /** STONE is a single word. */
  lemma WordsOfStone()
    ensures Join(["STONE"], '_') == "STONE"
  {
  }

  /** The displayed word of STONE, on its own. */
  lemma DisplayWordsOfStone()
    ensures Join(DisplayWords(["STONE"]), ' ') == "Stone"
  {
    DisplayWordStone();
    assert DisplayWords(["STONE"]) == ["Stone"];
  }

  /** The display of STONE, a single word. */
  lemma DisplayStone()
    ensures Display(GetName(STONE)) == Success("Stone")
  {
    assert GetName(STONE) == "STONE";
    DisplayOfStoneText();
  }
}
