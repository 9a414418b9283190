/** The model section of the settings window (Sources/UI/SettingsView.swift): whether a
    download is running, whether the download button is enabled, and its title. */
module Settings {
  import opened Wrappers
  import opened AppStates

  const ModelReadyTitle := "Model Ready"

  function ToUpper(c: char): char {
    if 'a' <= c <= 'z' then (c as int - 32) as char else c
  }

  function ToLower(c: char): char {
    if 'A' <= c <= 'Z' then (c as int + 32) as char else c
  }

  predicate IsCased(c: char) { 'a' <= c <= 'z' || 'A' <= c <= 'Z' }

  /** The characters that are neither cased nor end a word: the apostrophe, '.', ':',
      '^' and '`'. */
  predicate IsCaseIgnorable(c: char) { c == '\'' || c == '.' || c == ':' || c == '^' || c == '`' }

  /** Foundation's `capitalized` on ASCII text: a letter is upper-cased when the last
      character before it that is not case-ignorable is not a letter, and lower-cased
      otherwise; every other character is kept. `afterCased` says whether that earlier
      character was a letter. */
  function CapitalizeFrom(s: string, afterCased: bool): (r: string)
    ensures |r| == |s|
    ensures forall i :: 0 <= i < |s| ==> (IsCased(r[i]) <==> IsCased(s[i]))
  {
    if s == [] then []
    else
      var c := s[0];
      var first := if !IsCased(c) then c else if afterCased then ToLower(c) else ToUpper(c);
      var next := if IsCaseIgnorable(c) then afterCased else IsCased(c);
      [first] + CapitalizeFrom(s[1..], next)
  }

  function Capitalized(s: string): (r: string)
    ensures |r| == |s|
    ensures |s| > 0 && IsCased(s[0]) ==> r[0] == ToUpper(s[0])
  {
    CapitalizeFrom(s, false)
  }

  /** Every character is a lower-case letter or case-ignorable. */
  predicate LowerOrIgnorable(s: string) {
    s == [] || (('a' <= s[0] <= 'z' || IsCaseIgnorable(s[0])) && LowerOrIgnorable(s[1..]))
  }

  /** Letters after a letter are lower-cased, across case-ignorable characters. */
  lemma {:induction false} LowerTailKept(s: string)
    requires LowerOrIgnorable(s)
    ensures CapitalizeFrom(s, true) == s
    decreases |s|
  {
    if s != [] {
      LowerTailKept(s[1..]);
      assert [s[0]] + s[1..] == s;
    }
  }

  /** A lower-case word whose only non-letters are case-ignorable gets just its first
      letter upper-cased. */
  lemma CapitalizedWord(first: char, rest: string)
    requires 'a' <= first <= 'z' && LowerOrIgnorable(rest)
    ensures Capitalized([first] + rest) == [ToUpper(first)] + rest
  {
    LowerTailKept(rest);
    assert ([first] + rest)[1..] == rest;
  }

  lemma CapitalizedTiny()
    ensures Capitalized("tiny") == "Tiny"
  {
    CapitalizedWord('t', "iny");
    assert "tiny" == ['t'] + "iny";
  }

  lemma CapitalizedBase()
    ensures Capitalized("base") == "Base"
  {
    CapitalizedWord('b', "ase");
    assert "base" == ['b'] + "ase";
  }

  lemma CapitalizedSmall()
    ensures Capitalized("small") == "Small"
  {
    CapitalizedWord('s', "mall");
    assert "small" == ['s'] + "mall";
  }

  /** The full stop does not start a new word, so "en" stays lower-case. */
  lemma CapitalizedMediumEn()
    ensures Capitalized("medium.en") == "Medium.en"
  {
    var rest := "edium.en";
    CapitalizedWord('m', rest);
    assert "medium.en" == ['m'] + rest by {
      var s := ['m'] + rest;
      assert s[0] == 'm' && s[1] == 'e' && s[2] == 'd' && s[3] == 'i' && s[4] == 'u';
      assert s[5] == 'm' && s[6] == '.' && s[7] == 'e' && s[8] == 'n';
    }
    assert [ToUpper('m')] + rest == "Medium.en" by {
      var s := [ToUpper('m')] + rest;
      assert s[0] == 'M' && s[1] == 'e' && s[2] == 'd' && s[3] == 'i' && s[4] == 'u';
      assert s[5] == 'm' && s[6] == '.' && s[7] == 'e' && s[8] == 'n';
    }
  }

  /** The four raw values capitalize to "Tiny", "Base", "Small" and "Medium.en". */
  lemma CapitalizedRawValue(m: WhisperModel)
    ensures Capitalized(m.RawValue()) == match m
      case Tiny => "Tiny"
      case Base => "Base"
      case Small => "Small"
      case MediumEn => "Medium.en"
  {
    match m
    case Tiny => CapitalizedTiny();
    case Base => CapitalizedBase();
    case Small => CapitalizedSmall();
    case MediumEn => CapitalizedMediumEn();
  }

  /** `isDownloading`. */
  function IsDownloading(status: ModelStatus): (r: bool)
    ensures r <==> exists p :: status == Downloading(p)
  {
    status.Downloading?
  }

  /** `canDownload`: never during a download; otherwise when the loaded model is not the
      selected one or the status is not ready. */
  function CanDownload(status: ModelStatus, loaded: Option<WhisperModel>, selected: WhisperModel): (r: bool)
    ensures IsDownloading(status) ==> !r
    ensures !IsDownloading(status) ==> (r <==> loaded != Some(selected) || status != Ready)
  {
    if IsDownloading(status) then false
    else if loaded != Some(selected) then true
    else if status != Ready then true
    else false
  }

  /** `buttonTitle`. */
  function ButtonTitle(status: ModelStatus, loaded: Option<WhisperModel>, selected: WhisperModel): (r: string)
    ensures r == ModelReadyTitle <==> loaded == Some(selected) && status == Ready
    ensures r != ModelReadyTitle ==> r == "Download " + Capitalized(selected.RawValue()) + " Model"
  {
    if loaded == Some(selected) && status == Ready then ModelReadyTitle
    else
      var t := "Download " + Capitalized(selected.RawValue()) + " Model";
      assert t[0] != ModelReadyTitle[0];
      t
  }

  /** Outside a download the button is enabled exactly when its title offers a download. */
  lemma CanDownloadMatchesTitle(status: ModelStatus, loaded: Option<WhisperModel>, selected: WhisperModel)
    requires !IsDownloading(status)
    ensures CanDownload(status, loaded, selected) <==> ButtonTitle(status, loaded, selected) != ModelReadyTitle
  {
  }
}
