/** The per-browser-session entries the page keeps between reruns
    (gauge_reader_app.py lines 31-38, 94-96 and 101): the two stored API keys,
    the rotation applied to the current image, and the id of the last upload
    seen. Streamlit's `st.session_state` is a dictionary, so each entry can
    also be missing; `None` below means "not in the session". */
module Session {
  import opened Wrappers

  /** Streamlit's id for one uploaded file. */
  type FileId = string

  /** The contents of the session store. `lastUploadedFileId` has two layers:
      the outer one says whether the entry exists, the inner one is the stored
      value, which starts out as Python's `None`. */
  datatype SessionView = SessionView(
    geminiApiKey: Option<string>,
    openrouterApiKey: Option<string>,
    rotationAngle: Option<int>,
    lastUploadedFileId: Option<Option<FileId>>)
  {
    /** Every entry the page reads is present. */
    predicate Initialized()
    {
      geminiApiKey.Some? && openrouterApiKey.Some? && rotationAngle.Some? && lastUploadedFileId.Some?
    }
  }

  /** A session nothing has been stored in yet. */
  const FreshSession: SessionView := SessionView(None, None, None, None)

  /** The rotation angles the page can produce. */
  predicate IsQuarterTurn(angle: int)
  {
    angle == 0 || angle == 90 || angle == 180 || angle == 270
  }

  /** `if key not in st.session_state: st.session_state.key = default`. */
  function WithDefault<T>(entry: Option<T>, default: T): (filled: Option<T>)
    ensures filled.Some?
    ensures entry.Some? ==> filled == entry
    ensures entry.None? ==> filled == Some(default)
  {
    if entry.None? then Some(default) else entry
  }

  /** Lines 31-38: each missing entry gets its default (empty keys, angle 0,
      no upload seen); an entry already present is never overwritten. */
  function WithDefaults(v: SessionView): (w: SessionView)
    ensures w.Initialized()
    ensures v.geminiApiKey.Some? ==> w.geminiApiKey == v.geminiApiKey
    ensures v.openrouterApiKey.Some? ==> w.openrouterApiKey == v.openrouterApiKey
    ensures v.rotationAngle.Some? ==> w.rotationAngle == v.rotationAngle
    ensures v.lastUploadedFileId.Some? ==> w.lastUploadedFileId == v.lastUploadedFileId
    ensures v == FreshSession ==> w == SessionView(Some(""), Some(""), Some(0), Some(None))
  {
    SessionView(
      WithDefault(v.geminiApiKey, ""),
      WithDefault(v.openrouterApiKey, ""),
      WithDefault(v.rotationAngle, 0),
      WithDefault(v.lastUploadedFileId, None))
  }

  /** Lines 94-96: an id other than the recorded one resets the angle to 0 and
      becomes the recorded id; the recorded id changes nothing. The keys are
      never touched. */
  function AfterUpload(v: SessionView, fileId: FileId): (w: SessionView)
    requires v.Initialized()
    ensures w.Initialized()
    ensures w.lastUploadedFileId == Some(Some(fileId))
    ensures v.lastUploadedFileId != Some(Some(fileId)) ==> w.rotationAngle == Some(0)
    ensures v.lastUploadedFileId == Some(Some(fileId)) ==> w == v
    ensures w.geminiApiKey == v.geminiApiKey && w.openrouterApiKey == v.openrouterApiKey
  {
    if v.lastUploadedFileId != Some(Some(fileId)) then
      v.(rotationAngle := Some(0), lastUploadedFileId := Some(Some(fileId)))
    else
      v
  }

  /** Line 101: the next angle a quarter turn on. Python's `%` by a positive
      number, like Dafny's, never yields a negative remainder, so the result
      is the one angle in [0, 360) that is congruent to `angle + 90`. */
  function RotateAngle(angle: int): (next: int)
    ensures 0 <= next < 360
    ensures (next - (angle + 90)) % 360 == 0
    ensures IsQuarterTurn(angle) ==> IsQuarterTurn(next)
  {
    (angle + 90) % 360
  }

  /** Line 101 applied to the session: only the angle changes. */
  function AfterRotate(v: SessionView): (w: SessionView)
    requires v.rotationAngle.Some?
    ensures w.rotationAngle == Some(RotateAngle(v.rotationAngle.value))
    ensures w.geminiApiKey == v.geminiApiKey && w.openrouterApiKey == v.openrouterApiKey
    ensures w.lastUploadedFileId == v.lastUploadedFileId
  {
    v.(rotationAngle := Some(RotateAngle(v.rotationAngle.value)))
  }

  /** Re-processing the upload that was just processed changes nothing. */
  lemma UploadIsIdempotent(v: SessionView, fileId: FileId)
    requires v.Initialized()
    ensures AfterUpload(AfterUpload(v, fileId), fileId) == AfterUpload(v, fileId)
  {
  }

  /** `n` presses of the rotate button. */
  function RotateTimes(angle: int, n: nat): int
  {
    if n == 0 then angle else RotateAngle(RotateTimes(angle, n - 1))
  }

  /** After at least one press the angle is `(angle + 90 * n) % 360`. */
  lemma {:induction false} RotateTimesIsModular(angle: int, n: nat)
    requires n >= 1
    ensures RotateTimes(angle, n) == (angle + 90 * n) % 360
  {
    if n > 1 {
      RotateTimesIsModular(angle, n - 1);
      var prev := angle + 90 * (n - 1);
      assert RotateTimes(angle, n) == (prev % 360 + 90) % 360;
      assert prev % 360 + 90 == prev + 90 - 360 * (prev / 360);
      assert (prev + 90 - 360 * (prev / 360)) % 360 == (prev + 90) % 360;
    }
  }

  /** From a reset angle, `n` presses give `(90 * n) % 360`. */
  lemma {:induction false} RotationsFromReset(n: nat)
    ensures RotateTimes(0, n) == (90 * n) % 360
  {
    if n >= 1 {
      RotateTimesIsModular(0, n);
    }
  }

  /** Four presses bring any reachable angle back to itself. */
  lemma FourRotationsAreIdentity(angle: int)
    requires IsQuarterTurn(angle)
    ensures RotateTimes(angle, 4) == angle
  {
  }

  /** The two changes a rerun makes to the session. */
  datatype Action = Upload(fileId: FileId) | RotatePress

  /** The session after a series of upload checks and rotate presses. */
  function Replay(v: SessionView, actions: seq<Action>): (w: SessionView)
    requires v.Initialized()
    ensures w.Initialized()
    ensures w.geminiApiKey == v.geminiApiKey && w.openrouterApiKey == v.openrouterApiKey
    decreases |actions|
  {
    if actions == [] then v
    else
      var u := Replay(v, actions[..|actions| - 1]);
      match actions[|actions| - 1]
      case Upload(fileId) => AfterUpload(u, fileId)
      case RotatePress => AfterRotate(u)
  }

  /** From any session whose angle is a quarter turn, no series of uploads and
      rotations leaves the four quarter turns. */
  lemma {:induction false} ReplayKeepsQuarterTurns(v: SessionView, actions: seq<Action>)
    requires v.Initialized() && IsQuarterTurn(v.rotationAngle.value)
    ensures IsQuarterTurn(Replay(v, actions).rotationAngle.value)
    decreases |actions|
  {
    if actions != [] {
      ReplayKeepsQuarterTurns(v, actions[..|actions| - 1]);
    }
  }

  /** `n` presses of the rotate button, as actions. */
  function Presses(n: nat): (actions: seq<Action>)
    ensures |actions| == n
    ensures forall i :: 0 <= i < n ==> actions[i] == RotatePress
  {
    seq(n, _ => RotatePress)
  }

  /** Rotating `n` times changes only the angle, which becomes `RotateTimes`. */
  lemma {:induction false} ReplayPresses(v: SessionView, n: nat)
    requires v.Initialized()
    ensures Replay(v, Presses(n)) == v.(rotationAngle := Some(RotateTimes(v.rotationAngle.value, n)))
  {
    if n > 0 {
      assert Presses(n)[..n - 1] == Presses(n - 1);
      ReplayPresses(v, n - 1);
    }
  }

  /** Uploading a new file and then pressing rotate `n` times leaves the angle
      at `(90 * n) % 360` with the new file recorded, whatever came before. */
  lemma UploadThenRotations(v: SessionView, fileId: FileId, n: nat)
    requires v.Initialized()
    ensures Replay(AfterUpload(v, fileId), Presses(n)).rotationAngle ==
      (if v.lastUploadedFileId == Some(Some(fileId)) then Some(RotateTimes(v.rotationAngle.value, n))
       else Some((90 * n) % 360))
    ensures Replay(AfterUpload(v, fileId), Presses(n)).lastUploadedFileId == Some(Some(fileId))
  {
    ReplayPresses(AfterUpload(v, fileId), n);
    RotationsFromReset(n);
  }

  /** The session store of one browser session. */
  class SessionState {
    var geminiApiKey: Option<string>
    var openrouterApiKey: Option<string>
    var rotationAngle: Option<int>
    var lastUploadedFileId: Option<Option<FileId>>

    /** The store's contents as a value. */
    function View(): SessionView
      reads this
    {
      SessionView(geminiApiKey, openrouterApiKey, rotationAngle, lastUploadedFileId)
    }

    /** A new browser session: nothing stored. */
    constructor ()
      ensures View() == FreshSession
    {
      geminiApiKey := None;
      openrouterApiKey := None;
      rotationAngle := None;
      lastUploadedFileId := None;
    }

    /** Lines 31-38. */
    method Initialize()
      modifies this
      ensures View() == WithDefaults(old(View()))
    {
      if geminiApiKey.None? {
        geminiApiKey := Some("");
      }
      if openrouterApiKey.None? {
        openrouterApiKey := Some("");
      }
      if rotationAngle.None? {
        rotationAngle := Some(0);
      }
      if lastUploadedFileId.None? {
        lastUploadedFileId := Some(None);
      }
    }

    /** Lines 94-96. */
    method OnUpload(fileId: FileId)
      requires View().Initialized()
      modifies this
      ensures View() == AfterUpload(old(View()), fileId)
    {
      if lastUploadedFileId != Some(Some(fileId)) {
        rotationAngle := Some(0);
        lastUploadedFileId := Some(Some(fileId));
      }
    }

    /** Line 101. */
    method Rotate()
      requires rotationAngle.Some?
      modifies this
      ensures View() == AfterRotate(old(View()))
    {
      rotationAngle := Some((rotationAngle.value + 90) % 360);
    }
  }
}
