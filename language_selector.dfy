/**
 * The language selector: twelve languages, a current selection that starts
 * at English, and a stored choice that is applied, reloaded and cleared.
 */
module LanguageSelector {
  import opened Wrappers

  datatype Language = Language(code: string, name: string, nativeName: string)

  const Languages: seq<Language> := [
    Language("en", "English", "English"),
    Language("hi", "Hindi", "हिंदी"),
    Language("mr", "Marathi", "मराठी"),
    Language("gu", "Gujarati", "ગુજરાતી"),
    Language("te", "Telugu", "తెలుగు"),
    Language("ta", "Tamil", "தமிழ்"),
    Language("kn", "Kannada", "ಕನ್ನಡ"),
    Language("bn", "Bengali", "বাংলা"),
    Language("pa", "Punjabi", "ਪੰਜਾਬੀ"),
    Language("or", "Odia", "ଓଡ଼ିଆ"),
    Language("as", "Assamese", "অসমীয়া"),
    Language("ml", "Malayalam", "മലയാളം")
  ]

  /** The codes, in list order. */
  function Codes(langs: seq<Language>): (r: seq<string>)
    ensures |r| == |langs| && forall i :: 0 <= i < |langs| ==> r[i] == langs[i].code
  {
    seq(|langs|, i requires 0 <= i < |langs| => langs[i].code)
  }

  /** `languages.find(l => l.code === code)`: the first language with the code. */
  function Find(langs: seq<Language>, code: string): (r: Option<Language>)
    ensures r.None? <==> forall i :: 0 <= i < |langs| ==> langs[i].code != code
    ensures r.Some? ==> r.value in langs && r.value.code == code
  {
    if langs == [] then None
    else if langs[0].code == code then Some(langs[0])
    else Find(langs[1..], code)
  }

  /** `find` returns the first language with the code: the one at the lowest index carrying it. */
  lemma {:induction false} FindFirst(langs: seq<Language>, code: string, i: int)
    requires 0 <= i < |langs| && langs[i].code == code
    requires forall j :: 0 <= j < i ==> langs[j].code != code
    ensures Find(langs, code) == Some(langs[i])
  {
    if i > 0 {
      assert langs[0].code != code;
      assert forall j :: 0 <= j < i - 1 ==> langs[1..][j].code != code by {
        forall j | 0 <= j < i - 1 ensures langs[1..][j].code != code {
          assert langs[1..][j] == langs[j + 1];
        }
      }
      FindFirst(langs[1..], code, i - 1);
    }
  }

  /** The twelve codes are pairwise different, so each finds exactly its own language. */
  lemma CodesDistinct()
    ensures |Languages| == 12
    ensures forall i, j :: 0 <= i < j < |Languages| ==> Languages[i].code != Languages[j].code
  {
  }

  /** With distinct codes, the language found for a listed code is the listed one. */
  lemma {:induction false} FindListed(langs: seq<Language>, i: int)
    requires 0 <= i < |langs|
    requires forall a, b :: 0 <= a < b < |langs| ==> langs[a].code != langs[b].code
    ensures Find(langs, langs[i].code) == Some(langs[i])
  {
    if i > 0 {
      assert langs[0].code != langs[i].code;
      FindListed(langs[1..], i - 1);
    }
  }

  /** A code is listed when some language carries it. */
  predicate Listed(code: string) {
    Find(Languages, code).Some?
  }

  /** The notice `applyLanguage` shows. */
  function AppliedNotice(lang: Language): string {
    "✅ Language applied: " + lang.nativeName
  }

  const ResetNotice: string := "🔄 Language reset to English"

  /** The selector's state, with the browser's stored choice as a field. */
  class Selector {
    var selected: string
    var stored: Option<string>

    /** The selection is always one of the listed codes. */
    predicate Valid()
      reads this
    {
      Listed(selected)
    }

    /** `currentLanguage`: always found on a valid selector. */
    function Current(): (r: Language)
      reads this
      requires Valid()
      ensures r in Languages && r.code == selected
    {
      Find(Languages, selected).value
    }

    /** Mounting starts at English, with whatever the browser has stored. */
    constructor(saved: Option<string>)
      ensures Valid() && selected == "en" && stored == saved
    {
      selected := "en";
      stored := saved;
    }

    /** The load effect: a stored code is adopted only when it is listed. */
    method LoadSaved()
      requires Valid()
      modifies this
      ensures Valid() && stored == old(stored)
      ensures old(stored).Some? && old(stored).value != "" && Listed(old(stored).value) ==> selected == old(stored).value
      ensures !(old(stored).Some? && old(stored).value != "" && Listed(old(stored).value)) ==> selected == old(selected)
    {
      if stored.Some? && stored.value != "" && Listed(stored.value) {
        selected := stored.value;
      }
    }

    /** A click on a language card; the cards offer only listed codes. */
    method HandleLanguageChange(code: string)
      requires Valid() && Listed(code)
      modifies this
      ensures Valid() && selected == code && stored == old(stored)
    {
      selected := code;
    }

    /** Stores the selection and returns the notice naming it; the selection stays. */
    method ApplyLanguage() returns (notice: string)
      requires Valid()
      modifies this
      ensures Valid() && selected == old(selected) && stored == Some(selected)
      ensures notice == AppliedNotice(Current())
    {
      stored := Some(selected);
      notice := AppliedNotice(Current());
    }

    /** Back to English, with the stored choice removed. */
    method ResetLanguage() returns (notice: string)
      modifies this
      ensures Valid() && selected == "en" && stored == None
      ensures notice == ResetNotice
    {
      selected := "en";
      stored := None;
      notice := ResetNotice;
    }
  }
}
