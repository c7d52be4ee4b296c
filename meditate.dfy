/**
 * The `Meditate` page's state (src/App.tsx:363-413): the chant list, the
 * active chant, the playing flag and the mood dialog. The audio element's
 * own playback is not part of the model; `hasAudio` says whether
 * `audioRef.current` is set.
 */
module Meditate {
  import opened Wrappers
  import opened Records

  /** A premium chant for a FREE user: the click is refused and the lock icon shown. */
  predicate Locked(c: Chant, planType: Option<string>) {
    c.isPremium != 0 && planType == Some("FREE")
  }

  /** The body `submitMood` posts: duration 10 and the active chant's frequency (undefined without one). */
  function MoodPost(rating: int, note: string, active: Option<Chant>): (b: MoodBody)
    ensures b.rating == rating && b.note == note && b.meditationDuration == 10
    ensures b.frequency.Some? <==> active.Some?
    ensures active.Some? ==> b.frequency == Some(active.value.frequency)
  {
    MoodBody(rating, note, 10, if active.Some? then Some(active.value.frequency) else None)
  }

  class Player {
    var chants: seq<Chant>
    var activeChant: Option<Chant>
    var isPlaying: bool
    var moodRating: int
    var moodNote: string
    var showMoodModal: bool
    var hasAudio: bool

    constructor (hasAudio: bool)
      ensures chants == [] && activeChant == None && !isPlaying
      ensures moodRating == 3 && moodNote == "" && !showMoodModal
      ensures this.hasAudio == hasAudio
    {
      chants, activeChant, isPlaying := [], None, false;
      moodRating, moodNote, showMoodModal := 3, "", false;
      this.hasAudio := hasAudio;
    }

    /** The chant list arrives; the first chant becomes active when there is one. */
    method Load(data: seq<Chant>)
      modifies this
      ensures chants == data
      ensures |data| > 0 ==> activeChant == Some(data[0])
      ensures |data| == 0 ==> activeChant == old(activeChant)
      ensures isPlaying == old(isPlaying) && moodRating == old(moodRating) && moodNote == old(moodNote)
      ensures showMoodModal == old(showMoodModal) && hasAudio == old(hasAudio)
    {
      chants := data;
      if |data| > 0 {
        activeChant := Some(data[0]);
      }
    }

    /** A click on a chant of the list: refused exactly when it is locked for the user's plan. */
    method Select(c: Chant, planType: Option<string>) returns (accepted: bool)
      modifies this
      ensures accepted <==> !Locked(c, planType)
      ensures !accepted ==> unchanged(this)
      ensures accepted ==> activeChant == Some(c) && !isPlaying
      ensures chants == old(chants) && moodRating == old(moodRating) && moodNote == old(moodNote)
      ensures showMoodModal == old(showMoodModal) && hasAudio == old(hasAudio)
    {
      if Locked(c, planType) {
        return false;
      }
      activeChant := Some(c);
      isPlaying := false;
      accepted := true;
    }

    /** The play/pause button: nothing without an audio element, otherwise the flag flips. */
    method TogglePlay()
      modifies this
      ensures !old(hasAudio) ==> unchanged(this)
      ensures old(hasAudio) ==> isPlaying == !old(isPlaying)
      ensures chants == old(chants) && activeChant == old(activeChant) && moodRating == old(moodRating)
      ensures moodNote == old(moodNote) && showMoodModal == old(showMoodModal) && hasAudio == old(hasAudio)
    {
      if !hasAudio {
        return;
      }
      isPlaying := !isPlaying;
    }

    /** The audio ended: open the mood dialog and stop. */
    method HandleFinish()
      modifies this
      ensures showMoodModal && !isPlaying
      ensures chants == old(chants) && activeChant == old(activeChant) && moodRating == old(moodRating)
      ensures moodNote == old(moodNote) && hasAudio == old(hasAudio)
    {
      showMoodModal := true;
      isPlaying := false;
    }

    /** One of the rating buttons 1..5. */
    method SetRating(n: int)
      modifies this
      ensures moodRating == n
      ensures chants == old(chants) && activeChant == old(activeChant) && isPlaying == old(isPlaying)
      ensures moodNote == old(moodNote) && showMoodModal == old(showMoodModal) && hasAudio == old(hasAudio)
    {
      moodRating := n;
    }

    /** Typing in the reflection box. */
    method SetNote(text: string)
      modifies this
      ensures moodNote == text
      ensures chants == old(chants) && activeChant == old(activeChant) && isPlaying == old(isPlaying)
      ensures moodRating == old(moodRating) && showMoodModal == old(showMoodModal) && hasAudio == old(hasAudio)
    {
      moodNote := text;
    }

    /** A click on the dialog's backdrop. */
    method CloseModal()
      modifies this
      ensures !showMoodModal
      ensures chants == old(chants) && activeChant == old(activeChant) && isPlaying == old(isPlaying)
      ensures moodRating == old(moodRating) && moodNote == old(moodNote) && hasAudio == old(hasAudio)
    {
      showMoodModal := false;
    }

    /**
     * "Save Reflection": the body posted, then the dialog closes and the note
     * clears. When the request is not delivered (`fetch` rejects) the state stays.
     */
    method SubmitMood(delivered: bool) returns (posted: MoodBody)
      modifies this
      ensures posted == MoodPost(old(moodRating), old(moodNote), old(activeChant))
      ensures delivered ==> !showMoodModal && moodNote == ""
      ensures !delivered ==> unchanged(this)
      ensures chants == old(chants) && activeChant == old(activeChant) && isPlaying == old(isPlaying)
      ensures moodRating == old(moodRating) && hasAudio == old(hasAudio)
    {
      posted := MoodPost(moodRating, moodNote, activeChant);
      if delivered {
        showMoodModal := false;
        moodNote := "";
      }
    }
  }
}
