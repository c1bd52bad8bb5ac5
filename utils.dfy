/**
 * Text post-processing (tyni_wispr/utils.py): loading the corrections table,
 * whole-word literal substitution in table order, the LanguageTool pass and
 * capitalisation of the first character.
 */
module Utils {
  import opened Wrappers
  import opened Text

  /** A corrections table: the (incorrect, correct) pairs of the JSON object, in `dict.items()` order. */
  type Table = seq<(string, string)>

  /** The table used whenever the configuration file cannot supply one: a double space becomes one space. */
  const DefaultCorrections: Table := [("  ", " ")]

  /** The shape of the value `json.load` returns; only an object carries a table. */
  datatype Json = JObject(entries: Table) | JArray | JString | JNumber | JBool | JNull

  /** What reading the corrections file can give. */
  datatype CorrectionsFile =
    | Missing               // the file does not exist (a default file is then written)
    | Unparseable           // json.JSONDecodeError
    | ReadFailed            // any other exception while opening, reading or writing
    | Parsed(content: Json) // json.load succeeded

  /** `load_corrections`: the parsed value if it is an object, the default table in every other case. */
  function LoadCorrections(file: CorrectionsFile): (table: Table)
    ensures file.Parsed? && file.content.JObject? ==> table == file.content.entries
    ensures !(file.Parsed? && file.content.JObject?) ==> table == DefaultCorrections
  {
    match file
    case Parsed(JObject(entries)) => entries
    case _ => DefaultCorrections
  }

  // ---------------------------------------------------------------------------
  // `re.sub(r'\b' + re.escape(key) + r'\b', value, text)`
  // ---------------------------------------------------------------------------

  /** Position p holds a word character (`\w`, abstracted as isWord); outside the text is non-word. */
  predicate WordAt(t: string, isWord: char -> bool, p: int) {
    0 <= p < |t| && isWord(t[p])
  }

  /** `\b` holds at position p: word-ness changes between p - 1 and p. */
  predicate Boundary(t: string, isWord: char -> bool, p: int) {
    WordAt(t, isWord, p - 1) != WordAt(t, isWord, p)
  }

  /** The escaped key occurs literally at p, delimited by word boundaries on both sides. */
  predicate WholeWordAt(t: string, key: string, isWord: char -> bool, p: nat) {
    && p + |key| <= |t|
    && t[p..p + |key|] == key
    && Boundary(t, isWord, p)
    && Boundary(t, isWord, p + |key|)
  }

  /** A replacement without backslashes, which `re.sub` inserts literally rather than as a template. */
  predicate LiteralReplacement(value: string) {
    '\\' !in value
  }

  predicate LiteralTable(table: Table) {
    forall i :: 0 <= i < |table| ==> LiteralReplacement(table[i].1)
  }

  /**
   * The output `re.sub` produces for t[p..]: matches are taken left to right and
   * do not overlap; after an empty match one character is copied, as Python 3.7+ does.
   */
  function SubstituteFrom(t: string, key: string, value: string, isWord: char -> bool, p: nat): string
    requires p <= |t|
    decreases |t| - p
  {
    if WholeWordAt(t, key, isWord, p) then
      if key != [] then value + SubstituteFrom(t, key, value, isWord, p + |key|)
      else if p == |t| then value
      else value + [t[p]] + SubstituteFrom(t, key, value, isWord, p + 1)
    else if p == |t| then []
    else [t[p]] + SubstituteFrom(t, key, value, isWord, p + 1)
  }

  /** One correction: every whole-word occurrence of key in t replaced by value. */
  function ReplaceWord(t: string, key: string, value: string, isWord: char -> bool): string
    requires LiteralReplacement(value)
  {
    SubstituteFrom(t, key, value, isWord, 0)
  }

  /** A stretch of text in which no match starts is copied unchanged. */
  lemma {:induction false} CopyUntilMatch(t: string, key: string, value: string, isWord: char -> bool, i: nat, j: nat)
    requires i <= j <= |t|
    requires forall p :: i <= p < j ==> !WholeWordAt(t, key, isWord, p)
    ensures SubstituteFrom(t, key, value, isWord, i) == t[i..j] + SubstituteFrom(t, key, value, isWord, j)
    decreases j - i
  {
    if i < j {
      CopyOne(t, key, value, isWord, i);
      CopyUntilMatch(t, key, value, isWord, i + 1, j);
      assert t[i..j] == [t[i]] + t[i + 1..j];
      assert [t[i]] + (t[i + 1..j] + SubstituteFrom(t, key, value, isWord, j))
          == ([t[i]] + t[i + 1..j]) + SubstituteFrom(t, key, value, isWord, j);
    }
  }

  /** Where no match starts, one character is copied. */
  lemma CopyOne(t: string, key: string, value: string, isWord: char -> bool, i: nat)
    requires i < |t| && !WholeWordAt(t, key, isWord, i)
    ensures SubstituteFrom(t, key, value, isWord, i) == [t[i]] + SubstituteFrom(t, key, value, isWord, i + 1)
  {
  }

  /** Text with no whole-word occurrence of the key is returned unchanged. */
  lemma NoWholeWordUnchanged(t: string, key: string, value: string, isWord: char -> bool)
    requires LiteralReplacement(value)
    requires forall p :: 0 <= p <= |t| ==> !WholeWordAt(t, key, isWord, p)
    ensures ReplaceWord(t, key, value, isWord) == t
  {
    CopyUntilMatch(t, key, value, isWord, 0, |t|);
    assert t[0..|t|] == t;
  }

  predicate AllWord(s: string, isWord: char -> bool) {
    forall i :: 0 <= i < |s| ==> isWord(s[i])
  }

  /**
   * Only whole words are replaced: in `key + " " + key + s` the first, delimited
   * occurrence is replaced and the one that begins the longer word `key + s` is not.
   */
  lemma PrefixOfLongerWordUntouched(key: string, s: string, value: string, isWord: char -> bool)
    requires key != [] && s != [] && AllWord(key, isWord) && AllWord(s, isWord) && !isWord(' ')
    requires LiteralReplacement(value)
    ensures ReplaceWord(key + " " + key + s, key, value, isWord) == value + " " + key + s
  {
    var t := key + " " + key + s;
    var k := |key|;
    assert t[..k] == key;
    assert t[k] == ' ';
    assert WholeWordAt(t, key, isWord, 0);
    assert SubstituteFrom(t, key, value, isWord, 0) == value + SubstituteFrom(t, key, value, isWord, k);
    assert !WholeWordAt(t, key, isWord, k) by {
      if k + k <= |t| {
        assert t[k..k + k][0] == t[k];
      }
    }
    assert SubstituteFrom(t, key, value, isWord, k) == [' '] + SubstituteFrom(t, key, value, isWord, k + 1);
    NoMatchInLongerWord(key, s, isWord);
    CopyUntilMatch(t, key, value, isWord, k + 1, |t|);
    assert SubstituteFrom(t, key, value, isWord, |t|) == [];
    assert t[k + 1..|t|] == key + s;
  }

  /** In `key + " " + key + s` no whole-word occurrence of key starts after the space. */
  lemma NoMatchInLongerWord(key: string, s: string, isWord: char -> bool)
    requires key != [] && s != [] && AllWord(key, isWord) && AllWord(s, isWord)
    ensures forall p :: |key| + 1 <= p <= |key + " " + key + s| ==> !WholeWordAt(key + " " + key + s, key, isWord, p)
  {
    var t := key + " " + key + s;
    var k := |key|;
    assert AllWord(t[k + 1..], isWord) by {
      assert t[k + 1..] == key + s;
    }
    forall p | k + 1 <= p <= |t|
      ensures !WholeWordAt(t, key, isWord, p)
    {
      if p == k + 1 {
        if p + k < |t| {
          assert t[p + k - 1] == t[k + 1..][k - 1] && t[p + k] == t[k + 1..][k];
        }
      } else if p < |t| {
        assert t[p - 1] == t[k + 1..][p - 1 - (k + 1)] && t[p] == t[k + 1..][p - (k + 1)];
      }
    }
  }

  /** The whole-word example of the program's own documentation. */
  lemma ChristyExample(isWord: char -> bool)
    requires AllWord("Christyson", isWord) && !isWord(' ')
    ensures ReplaceWord("Christy Christyson", "Christy", "Christie", isWord) == "Christie Christyson"
  {
    ChristysonWords(isWord);
    PrefixOfLongerWordUntouched("Christy", "son", "Christie", isWord);
    ChristySpelling();
  }

  lemma ChristysonWords(isWord: char -> bool)
    requires AllWord("Christyson", isWord)
    ensures AllWord("Christy", isWord) && AllWord("son", isWord)
  {
    forall i | 0 <= i < 7 ensures isWord("Christy"[i]) {
      assert "Christy"[i] == "Christyson"[i];
    }
    forall i | 0 <= i < 3 ensures isWord("son"[i]) {
      assert "son"[i] == "Christyson"[i + 7];
    }
  }

  lemma ChristySpelling()
    ensures "Christy" + " " + "Christy" + "son" == "Christy Christyson"
    ensures "Christie" + " " + "Christy" + "son" == "Christie Christyson"
  {
  }

  // ---------------------------------------------------------------------------
  // The table applied in order
  // ---------------------------------------------------------------------------

  /** The corrections of the table applied one after the other, each to the result of the previous. */
  function ApplyCorrections(table: Table, t: string, isWord: char -> bool): string
    requires LiteralTable(table)
    decreases |table|
  {
    if table == [] then t
    else ApplyCorrections(table[1..], ReplaceWord(t, table[0].0, table[0].1, isWord), isWord)
  }

  /** Applying a concatenated table is applying its first part, then its second part to that result. */
  lemma {:induction false} ApplyCorrectionsAppend(t1: Table, t2: Table, t: string, isWord: char -> bool)
    requires LiteralTable(t1) && LiteralTable(t2)
    ensures LiteralTable(t1 + t2)
    ensures ApplyCorrections(t1 + t2, t, isWord) == ApplyCorrections(t2, ApplyCorrections(t1, t, isWord), isWord)
    decreases |t1|
  {
    assert LiteralTable(t1 + t2) by {
      forall i | 0 <= i < |t1 + t2| ensures LiteralReplacement((t1 + t2)[i].1) {
        if i < |t1| { assert (t1 + t2)[i] == t1[i]; } else { assert (t1 + t2)[i] == t2[i - |t1|]; }
      }
    }
    if t1 == [] {
      assert t1 + t2 == t2;
    } else {
      assert (t1 + t2)[1..] == t1[1..] + t2;
      ApplyCorrectionsAppend(t1[1..], t2, ReplaceWord(t, t1[0].0, t1[0].1, isWord), isWord);
    }
  }

  /** One step of the loop in post_process_transcription: the first k + 1 entries are the first k, then entry k. */
  lemma ApplyCorrectionsStep(table: Table, k: nat, t: string, isWord: char -> bool)
    requires LiteralTable(table) && k < |table|
    ensures LiteralTable(table[..k]) && LiteralTable(table[..k + 1])
    ensures ApplyCorrections(table[..k + 1], t, isWord)
         == ReplaceWord(ApplyCorrections(table[..k], t, isWord), table[k].0, table[k].1, isWord)
  {
    assert LiteralTable(table[..k]) by {
      forall i | 0 <= i < k ensures LiteralReplacement(table[..k][i].1) { assert table[..k][i] == table[i]; }
    }
    assert LiteralTable([table[k]]);
    assert table[..k + 1] == table[..k] + [table[k]];
    ApplyCorrectionsAppend(table[..k], [table[k]], t, isWord);
  }

  /**
   * With the default table exactly a double space between two words collapses
   * to one space; single spaces and runs of three or more are left unchanged.
   */
  lemma DefaultTableCollapsesOnlyDoubleSpaces(u: string, n: nat, v: string, isWord: char -> bool)
    requires u != [] && v != [] && AllWord(u, isWord) && AllWord(v, isWord) && !isWord(' ')
    ensures ApplyCorrections(DefaultCorrections, u + Spaces(n) + v, isWord)
         == if n == 2 then u + " " + v else u + Spaces(n) + v
  {
    var t := u + Spaces(n) + v;
    assert ApplyCorrections(DefaultCorrections, t, isWord) == ReplaceWord(t, "  ", " ", isWord);
    if n == 2 {
      forall p | 0 <= p < |u| ensures !WholeWordAt(t, "  ", isWord, p) {
        if WholeWordAt(t, "  ", isWord, p) { DoubleSpaceMatchAt(u, n, v, isWord, p); }
      }
      CopyUntilMatch(t, "  ", " ", isWord, 0, |u|);
      assert t[|u|..|u| + 2] == "  ";
      assert WholeWordAt(t, "  ", isWord, |u|);
      forall p | |u| + 2 <= p <= |t| ensures !WholeWordAt(t, "  ", isWord, p) {
        if WholeWordAt(t, "  ", isWord, p) { DoubleSpaceMatchAt(u, n, v, isWord, p); }
      }
      CopyUntilMatch(t, "  ", " ", isWord, |u| + 2, |t|);
      assert t[0..|u|] == u && t[|u| + 2..|t|] == v;
    } else {
      forall p | 0 <= p <= |t| ensures !WholeWordAt(t, "  ", isWord, p) {
        if WholeWordAt(t, "  ", isWord, p) { DoubleSpaceMatchAt(u, n, v, isWord, p); }
      }
      NoWholeWordUnchanged(t, "  ", " ", isWord);
    }
  }

  function Spaces(n: nat): (s: string)
    ensures |s| == n && forall i :: 0 <= i < n ==> s[i] == ' '
  {
    seq(n, _ => ' ')
  }

  /** The only place `\b  \b` can match in `u + Spaces(n) + v` is right after u, and only when n is 2. */
  lemma DoubleSpaceMatchAt(u: string, n: nat, v: string, isWord: char -> bool, p: nat)
    requires u != [] && v != [] && AllWord(u, isWord) && AllWord(v, isWord) && !isWord(' ')
    requires WholeWordAt(u + Spaces(n) + v, "  ", isWord, p)
    ensures n == 2 && p == |u|
  {
    var t := u + Spaces(n) + v;
    assert t[p..p + 2][0] == t[p] == ' ' && t[p..p + 2][1] == t[p + 1] == ' ';
    assert forall i :: 0 <= i < |u| ==> t[i] == u[i];
    assert forall i :: |u| <= i < |u| + n ==> t[i] == ' ';
    assert forall i :: |u| + n <= i < |t| ==> t[i] == v[i - |u| - n];
    assert |u| <= p && p + 1 < |u| + n;
    assert !WordAt(t, isWord, p) && !WordAt(t, isWord, p + 1);
  }

  // ---------------------------------------------------------------------------
  // post_process_transcription
  // ---------------------------------------------------------------------------

  /** `text[0]` on an empty string. */
  datatype PostProcessError = IndexError

  /** The LanguageTool pass; `None` stands for any exception it raises, which is swallowed. */
  function GrammarPass(t: string, languageTool: string -> Option<string>): (r: string)
    ensures languageTool(t).None? ==> r == t
    ensures languageTool(t).Some? ==> r == languageTool(t).value
  {
    match languageTool(t)
    case None => t
    case Some(corrected) => corrected
  }

  /** `text[0].upper() + text[1:]`: only the first character changes; empty text raises IndexError. */
  function Capitalise(t: string): (r: Result<string, PostProcessError>)
    ensures r.Failure? <==> t == []
    ensures r.Success? ==> |r.value| == |t| && r.value[0] == UpperChar(t[0]) && r.value[1..] == t[1..]
  {
    if t == [] then Failure(IndexError) else Success(UpperFirst(t))
  }

  /** What post_process_transcription returns, as a function of its inputs. */
  function PostProcessResult(text: string, file: CorrectionsFile, isWord: char -> bool,
                             languageTool: string -> Option<string>): Result<string, PostProcessError>
    requires LiteralTable(LoadCorrections(file))
  {
    var stripped := Strip(text);
    if stripped == [] then Success([])
    else Capitalise(GrammarPass(ApplyCorrections(LoadCorrections(file), stripped, isWord), languageTool))
  }

  /** post_process_transcription: strip, apply the corrections in table order, LanguageTool, capitalise. */
  method PostProcessTranscription(text: string, file: CorrectionsFile, isWord: char -> bool,
                                  languageTool: string -> Option<string>)
    returns (r: Result<string, PostProcessError>)
    requires LiteralTable(LoadCorrections(file))
    ensures r == PostProcessResult(text, file, isWord, languageTool)
  {
    var t := Strip(text);
    if t == [] {
      return Success([]);
    }
    var corrections := LoadCorrections(file);
    ghost var stripped := t;
    for k := 0 to |corrections|
      invariant LiteralTable(corrections[..k])
      invariant t == ApplyCorrections(corrections[..k], stripped, isWord)
    {
      ApplyCorrectionsStep(corrections, k, stripped, isWord);
      t := ReplaceWord(t, corrections[k].0, corrections[k].1, isWord);
    }
    assert corrections[..|corrections|] == corrections;
    t := GrammarPass(t, languageTool);
    r := Capitalise(t);
  }

  /** Empty or whitespace-only input gives "" and nothing else is attempted. */
  lemma BlankInputGivesEmpty(text: string, file: CorrectionsFile, isWord: char -> bool,
                             languageTool: string -> Option<string>)
    requires LiteralTable(LoadCorrections(file))
    requires AllSpace(text)
    ensures PostProcessResult(text, file, isWord, languageTool) == Success([])
  {
    StripEmptyIff(text);
  }

  /** A failing LanguageTool leaves the corrected text as it is; only its first character is then upper-cased. */
  lemma LanguageToolFailureKeepsCorrectedText(text: string, file: CorrectionsFile, isWord: char -> bool,
                                              languageTool: string -> Option<string>)
    requires LiteralTable(LoadCorrections(file))
    requires Strip(text) != []
    requires forall s :: languageTool(s).None?
    ensures var corrected := ApplyCorrections(LoadCorrections(file), Strip(text), isWord);
            PostProcessResult(text, file, isWord, languageTool) == Capitalise(corrected)
  {
  }

  /** A successful, non-empty result never starts with a lower-case ASCII letter. */
  lemma ResultStartsUpper(text: string, file: CorrectionsFile, isWord: char -> bool,
                          languageTool: string -> Option<string>)
    requires LiteralTable(LoadCorrections(file))
    ensures var r := PostProcessResult(text, file, isWord, languageTool);
            r.Success? && r.value != [] ==> !('a' <= r.value[0] <= 'z')
  {
  }

  /**
   * The emptiness check comes before the corrections: a correction that deletes
   * the whole text makes the capitalisation raise IndexError.
   */
  lemma CorrectionToEmptyRaises(isWord: char -> bool)
    requires isWord('u') && isWord('m')
    ensures var file := Parsed(JObject([("um", "")]));
            PostProcessResult("um", file, isWord, _ => None) == Failure(IndexError)
  {
    var t := "um";
    assert WholeWordAt(t, "um", isWord, 0) by { assert t[0..2] == "um"; }
    assert SubstituteFrom(t, "um", "", isWord, 2) == [];
    assert ReplaceWord(t, "um", "", isWord) == [];
    assert Strip(t) == t by { StripOfStripped(t); }
  }
}
