/**
 * Company-name extraction (`CompanyResearchAgent._extract_company_name`):
 * lower-case the turn, delete the filler phrases one after the other, and
 * title-case what is left word by word.
 */
module Naming {
  import opened Wrappers
  import opened Text

  /** A phrase to delete; never empty. */
  type Phrase = s: string | |s| > 0 witness "x"

  /** The phrases deleted from the lower-cased turn, in the order they are deleted. */
  const FillerPhrases: seq<Phrase> := [
    "research", "look up", "look into", "tell me about",
    "information on", "information about", "find", "search for",
    "i want to know about", "can you research", "please research"
  ]

  /** `for phrase in phrases: s = s.replace(phrase, "")`. A text holding none
      of the phrases is left as it is. */
  function RemovePhrases(s: string, phrases: seq<Phrase>): (r: string)
    ensures (forall k :: 0 <= k < |phrases| ==> !Contains(s, phrases[k])) ==> r == s
    decreases |phrases|
  {
    if phrases == [] then s else RemovePhrases(Replace(s, phrases[0], ""), phrases[1..])
  }

  /** What is left of a turn once it is lower-cased and the filler phrases are gone. */
  function CleanInput(input: string): string {
    RemovePhrases(Lower(input), FillerPhrases)
  }

  /** The extracted, title-cased company name, or `None` when only
      whitespace remains; a name found is never empty. */
  function ExtractCompanyName(input: string): (r: Option<string>)
    ensures r.Some? ==> r.value != []
  {
    var name := Strip(CleanInput(input));
    if name != [] then Some(Normalize(name)) else None
  }

  /** The extraction as the source runs it: the deletion loop over the filler
      phrases, then trimming and title-casing. */
  method ExtractName(input: string) returns (name: Option<string>)
    ensures name == ExtractCompanyName(input)
  {
    var clean := DeletePhrases(Lower(input), FillerPhrases);
    var company := Strip(clean);
    if company != [] {
      name := Some(Normalize(company));
    } else {
      name := None;
    }
  }

  /** The deletion loop: each phrase in turn is replaced by nothing. */
  method DeletePhrases(s: string, phrases: seq<Phrase>) returns (clean: string)
    ensures clean == RemovePhrases(s, phrases)
  {
    clean := s;
    var i := 0;
    while i < |phrases|
      invariant 0 <= i <= |phrases|
      invariant RemovePhrases(clean, phrases[i..]) == RemovePhrases(s, phrases)
    {
      assert phrases[i..][1..] == phrases[i + 1..];
      clean := Replace(clean, phrases[i], "");
      i := i + 1;
    }
  }

  /** No whitespace at either end, and every whitespace character is a
      single space between two words. */
  predicate SingleSpaced(r: string) {
    |r| > 0 && !IsSpace(r[0]) && !IsSpace(r[|r| - 1]) &&
    forall i :: 0 <= i < |r| && IsSpace(r[i]) ==> r[i] == ' ' && i + 1 < |r| && !IsSpace(r[i + 1])
  }

  /** The first character of every word is upper case, every other character lower case. */
  predicate CapitalizedWords(r: string) {
    forall i :: 0 <= i < |r| ==>
      if i == 0 || r[i - 1] == ' ' then UpperChar(r[i]) == r[i] else LowerChar(r[i]) == r[i]
  }

  /** Capitalising a non-empty word without whitespace gives a capitalised
      word, still without whitespace. */
  lemma CapitalizeShape(w: string)
    requires w != [] && NoSpace(w)
    ensures Capitalized(Capitalize(w)) && NoSpace(Capitalize(w))
  {
    var c := Capitalize(w);
    forall j | 0 <= j < |c| ensures !IsSpace(c[j]) {
      if j > 0 { assert c[j] == LowerChar(w[j]); }
    }
  }

  lemma CapitalizeFixes(w: string)
    requires Capitalized(w)
    ensures Capitalize(w) == w
  {
    assert Capitalize(w) == [w[0]] + w[1..];
  }

  /** Joining capitalised words with single spaces yields a well-formed name. */
  lemma {:induction false} JoinShape(ws: seq<string>)
    requires |ws| > 0
    requires forall k :: 0 <= k < |ws| ==> Capitalized(ws[k]) && NoSpace(ws[k])
    ensures SingleSpaced(Join(" ", ws)) && CapitalizedWords(Join(" ", ws))
  {
    var w := ws[0];
    if |ws| > 1 {
      var rest := Join(" ", ws[1..]);
      JoinShape(ws[1..]);
      var r := w + " " + rest;
      assert Join(" ", ws) == r;
      assert r[0] == w[0];
      assert r[|r| - 1] == rest[|rest| - 1];
      forall i | 0 <= i < |r|
        ensures IsSpace(r[i]) ==> r[i] == ' ' && i + 1 < |r| && !IsSpace(r[i + 1])
        ensures if i == 0 || r[i - 1] == ' ' then UpperChar(r[i]) == r[i] else LowerChar(r[i]) == r[i]
      {
        if i < |w| {
          assert r[i] == w[i];
          if 0 < i { assert r[i - 1] == w[i - 1]; }
        } else if i == |w| {
          assert r[i + 1] == rest[0];
          assert r[i - 1] == w[|w| - 1];
        } else {
          assert r[i] == rest[i - |w| - 1];
          if i + 1 < |r| { assert r[i + 1] == rest[i - |w|]; }
          if i - 1 > |w| { assert r[i - 1] == rest[i - |w| - 2]; }
        }
      }
    } else {
      assert Join(" ", ws) == w;
    }
  }

  lemma TrimLeftNoLead(s: string)
    requires s == [] || !IsSpace(s[0])
    ensures TrimLeft(s) == s
  {
  }

  /** A word followed by nothing or by whitespace is split off first. */
  lemma WordsCons(w: string, tail: string)
    requires w != [] && NoSpace(w) && (tail == [] || IsSpace(tail[0]))
    ensures Words(w + tail) == [w] + Words(tail)
  {
    var s := w + tail;
    forall j | 0 <= j < |w| ensures s[j] == w[j] && !IsSpace(s[j]) {
    }
    assert |s| == |w| || s[|w|] == tail[0];
    assert WordEnd(s) == |w|;
    assert s[..|w|] == w && s[|w|..] == tail;
  }

  /** A single word splits into itself. */
  lemma WordsOfWord(w: string)
    requires w != [] && NoSpace(w)
    ensures Words(w) == [w]
  {
    WordsCons(w, "");
    assert w + "" == w;
  }

  /** Splitting single-space-joined, space-free, non-empty words gives them back. */
  lemma {:induction false} WordsOfJoin(ws: seq<string>)
    requires forall k :: 0 <= k < |ws| ==> ws[k] != [] && NoSpace(ws[k])
    ensures Words(Join(" ", ws)) == ws
  {
    if |ws| == 1 {
      WordsOfWord(ws[0]);
    } else if |ws| > 1 {
      var j := Join(" ", ws[1..]);
      WordsOfJoin(ws[1..]);
      assert (" " + j)[0] == ' ' && (" " + j)[1..] == j;
      WordsCons(ws[0], " " + j);
      assert Join(" ", ws) == ws[0] + (" " + j);
      assert ws == [ws[0]] + ws[1..];
    }
  }

  /** `Normalize` applied to capitalised words joined by single spaces changes nothing. */
  lemma NormalizeFixesJoined(caps: seq<string>)
    requires forall k :: 0 <= k < |caps| ==> Capitalized(caps[k]) && NoSpace(caps[k])
    ensures Normalize(Join(" ", caps)) == Join(" ", caps)
  {
    WordsOfJoin(caps);
    forall k | 0 <= k < |caps| ensures Capitalize(caps[k]) == caps[k] {
      CapitalizeFixes(caps[k]);
    }
    assert CapitalizeAll(caps) == caps;
  }

  lemma CapitalizedWordsOf(s: string)
    ensures forall k :: 0 <= k < |CapitalizeAll(Words(s))| ==>
      Capitalized(CapitalizeAll(Words(s))[k]) && NoSpace(CapitalizeAll(Words(s))[k])
  {
    var ws := Words(s);
    WordsShape(s);
    forall k | 0 <= k < |ws|
      ensures Capitalized(CapitalizeAll(ws)[k]) && NoSpace(CapitalizeAll(ws)[k])
    {
      CapitalizeShape(ws[k]);
    }
  }

  /** The extraction yields `None` exactly when nothing but whitespace is
      left once the filler phrases are gone. */
  lemma ExtractNoneIff(t: string)
    ensures ExtractCompanyName(t).None? <==> AllSpace(CleanInput(t))
  {
    StripShape(CleanInput(t));
  }

  /** An extracted name has no outer whitespace, single-space separators and
      capitalised words. */
  lemma ExtractShape(t: string)
    requires ExtractCompanyName(t).Some?
    ensures SingleSpaced(ExtractCompanyName(t).value)
    ensures CapitalizedWords(ExtractCompanyName(t).value)
  {
    var name := Strip(CleanInput(t));
    StripShape(CleanInput(t));
    TrimLeftNoLead(name);
    assert Words(name) != [];
    CapitalizedWordsOf(name);
    JoinShape(CapitalizeAll(Words(name)));
  }

  /** Re-applying split / capitalize / join to an extracted name leaves it unchanged. */
  lemma ExtractIsNormalized(t: string)
    requires ExtractCompanyName(t).Some?
    ensures Normalize(ExtractCompanyName(t).value) == ExtractCompanyName(t).value
  {
    var name := Strip(CleanInput(t));
    CapitalizedWordsOf(name);
    NormalizeFixesJoined(CapitalizeAll(Words(name)));
  }

  /** Extraction lower-cases first, so the case of the turn does not matter. */
  lemma ExtractIgnoresCase(t: string)
    ensures ExtractCompanyName(Lower(t)) == ExtractCompanyName(t)
  {
    LowerIdempotent(t);
  }
}
