/**
 * The content detail page: the player's play/pause and favourite toggles,
 * and the difficulty badge's text and colour.
 */
module ContentDetail {
  import opened Language
  import opened Text

  /** `difficulty.charAt(0).toUpperCase() + difficulty.slice(1)`; the empty string stays empty. */
  function Capitalize(s: string): (r: string)
    ensures |r| == |s|
    ensures |s| > 0 ==> r[0] == ToUpperChar(s[0]) && r[1..] == s[1..]
  {
    if s == [] then [] else [ToUpperChar(s[0])] + s[1..]
  }

  /** Capitalising twice is capitalising once, and it changes nothing but the case of the first letter. */
  lemma CapitalizeOnlyCase(s: string)
    ensures Capitalize(Capitalize(s)) == Capitalize(s)
    ensures ToLower(Capitalize(s)) == ToLower(s)
  {
    if s != [] {
      var c := s[0];
      assert ToUpperChar(ToUpperChar(c)) == ToUpperChar(c);
      assert ToLowerChar(ToUpperChar(c)) == ToLowerChar(c);
      assert ToLower(Capitalize(s))[0] == ToLower(s)[0];
      assert forall i :: 1 <= i < |s| ==> ToLower(Capitalize(s))[i] == ToLower(s)[i];
    }
  }

  /** `getDifficultyText`: fixed Thai labels, or the capitalised level in English. */
  function DifficultyText(l: Language, difficulty: string): (r: string)
    ensures l == En ==> |r| == |difficulty|
    ensures l == Th && difficulty !in {"beginner", "intermediate", "advanced"} ==> r == Unspecified
  {
    if l == Th then
      if difficulty == "beginner" then "เริ่มต้น"
      else if difficulty == "intermediate" then "ปานกลาง"
      else if difficulty == "advanced" then "ขั้นสูง"
      else Unspecified
    else Capitalize(difficulty)
  }

  const Unspecified := "ไม่ระบุ"

  /**
   * In Thai the three levels get three distinct labels and anything else
   * reads "unspecified"; in English every string, the unknown ones
   * included, is shown capitalised.
   */
  lemma DifficultyTextCases(difficulty: string)
    ensures DifficultyText(Th, difficulty) == Unspecified <==>
              difficulty !in {"beginner", "intermediate", "advanced"}
    ensures DifficultyText(Th, "beginner") != DifficultyText(Th, "intermediate")
    ensures DifficultyText(Th, "beginner") != DifficultyText(Th, "advanced")
    ensures DifficultyText(Th, "intermediate") != DifficultyText(Th, "advanced")
    ensures |DifficultyText(En, difficulty)| == |difficulty|
    ensures DifficultyText(En, "beginner") == "Beginner"
    ensures DifficultyText(En, "intermediate") == "Intermediate"
    ensures DifficultyText(En, "advanced") == "Advanced"
  {
    assert "เริ่มต้น"[0] != Unspecified[0] && "ปานกลาง"[0] != Unspecified[0] && "ขั้นสูง"[0] != Unspecified[0];
    assert "เริ่มต้น"[0] != "ปานกลาง"[0] && "เริ่มต้น"[0] != "ขั้นสูง"[0] && "ปานกลาง"[0] != "ขั้นสูง"[0];
  }

  const Green := "bg-green-100 text-green-800"
  const Yellow := "bg-yellow-100 text-yellow-800"
  const Red := "bg-red-100 text-red-800"
  const Gray := "bg-gray-100 text-gray-800"

  /** `getDifficultyColor`. */
  function DifficultyColor(difficulty: string): (r: string)
    ensures r in {Green, Yellow, Red, Gray}
    ensures difficulty !in {"beginner", "intermediate", "advanced"} ==> r == Gray
  {
    if difficulty == "beginner" then Green
    else if difficulty == "intermediate" then Yellow
    else if difficulty == "advanced" then Red
    else Gray
  }

  /** Green exactly for beginners, yellow exactly for intermediate, red exactly for advanced, gray otherwise. */
  lemma DifficultyColorCases(difficulty: string)
    ensures DifficultyColor(difficulty) == Green <==> difficulty == "beginner"
    ensures DifficultyColor(difficulty) == Yellow <==> difficulty == "intermediate"
    ensures DifficultyColor(difficulty) == Red <==> difficulty == "advanced"
    ensures DifficultyColor(difficulty) == Gray <==> difficulty !in {"beginner", "intermediate", "advanced"}
  {
    assert Green[5] != Red[5] && Green[5] != Yellow[5] && Green[5] != Gray[5];
    assert Red[5] != Yellow[5] && Red[5] != Gray[5] && Yellow[5] != Gray[5];
  }

  /** The page's player state. */
  class ContentDetailView {
    var isPlaying: bool
    var isFavorite: bool
    var progress: int
    var volume: int

    /** Paused, not a favourite, at the start, at 80% volume. */
    constructor ()
      ensures !isPlaying && !isFavorite && progress == 0 && volume == 80
    {
      isPlaying := false;
      isFavorite := false;
      progress := 0;
      volume := 80;
    }

    /** `handlePlayPause`. */
    method HandlePlayPause()
      modifies this
      ensures isPlaying == !old(isPlaying)
      ensures isFavorite == old(isFavorite) && progress == old(progress) && volume == old(volume)
    {
      isPlaying := !isPlaying;
    }

    /** `handleFavorite`. */
    method HandleFavorite()
      modifies this
      ensures isFavorite == !old(isFavorite)
      ensures isPlaying == old(isPlaying) && progress == old(progress) && volume == old(volume)
    {
      isFavorite := !isFavorite;
    }
  }

  /** Pressing either button twice leaves the player as it was. */
  method TogglesAreInvolutions(v: ContentDetailView)
    modifies v
    ensures v.isPlaying == old(v.isPlaying) && v.isFavorite == old(v.isFavorite)
    ensures v.progress == old(v.progress) && v.volume == old(v.volume)
  {
    v.HandlePlayPause();
    v.HandleFavorite();
    v.HandlePlayPause();
    v.HandleFavorite();
  }
}
