/**
 * The `AudioPlayer` component of `AudioPlayer.tsx`: an object URL follows
 * the audio blob it is given, the `<audio>` element's events drive the
 * playing flag, the position and the duration, and the component offers
 * play/pause, seeking, a download under a sanitised file name, and `m:ss`
 * time labels.
 */
module AudioPlayer {
  import opened Wrappers
  import opened JsText
  import opened Bytes

  /** A media time in seconds as the element reports it; `NaN` before metadata is known. */
  datatype Time = NaN | Finite(seconds: real)

  // ---------------------------------------------------------------------------
  // formatTime
  // ---------------------------------------------------------------------------

  /** `Math.trunc`. */
  function Trunc(x: real): int {
    if x >= 0.0 then x.Floor else -((-x).Floor)
  }

  /** JavaScript's `x % 60`: the remainder takes the sign of `x`. */
  function Rem60(x: real): real {
    x - 60.0 * Trunc(x / 60.0) as real
  }

  /** `formatTime(time)`: whole minutes, a colon, and whole seconds padded to two digits. */
  function FormatTime(time: Time): string {
    match time
    case NaN => "0:00"
    case Finite(x) => ClockLabel(Minutes(x), Seconds(x))
  }

  /** `Math.floor(time / 60)`. */
  function Minutes(x: real): int {
    (x / 60.0).Floor
  }

  /** `Math.floor(time % 60)`. */
  function Seconds(x: real): int {
    Rem60(x).Floor
  }

  /** The minutes, a colon, and the seconds padded to two digits. */
  function ClockLabel(minutes: int, seconds: int): string {
    IntToString(minutes) + ":" + PadStart2(IntToString(seconds))
  }

  /** Reads an `m:ss` label back as a number of whole seconds. */
  function ParseClock(clock: string): Option<int> {
    ClockOfParts(Split(clock, ':'))
  }

  /** Minutes and two-digit seconds, as the pieces between colons. */
  function ClockOfParts(parts: seq<string>): Option<int> {
    if |parts| == 2 && IsDigits(parts[0]) && IsDigits(parts[1]) && parts[0] != [] && |parts[1]| == 2 then
      Some(60 * DigitsValue(parts[0]) + DigitsValue(parts[1]))
    else None
  }

  /** A non-negative time splits into minutes and seconds below 60 that add up to its whole seconds. */
  lemma ClockParts(x: real)
    requires x >= 0.0
    ensures 0 <= Minutes(x) && 0 <= Seconds(x) < 60 && 60 * Minutes(x) + Seconds(x) == x.Floor
  {
    var m := (x / 60.0).Floor;
    assert m as real <= x / 60.0 < m as real + 1.0;
    assert Trunc(x / 60.0) == m;
    var r := Rem60(x);
    assert r == x - 60.0 * m as real;
    assert 0.0 <= r < 60.0;
    var s := r.Floor;
    assert s as real <= r < s as real + 1.0;
    assert (60 * m + s) as real <= x < (60 * m + s) as real + 1.0;
  }

  /** Two-digit padding keeps the value of the digits. */
  lemma PaddedValue(n: nat)
    requires n < 100
    ensures var p := PadStart2(NatToString(n));
      |p| == 2 && IsDigits(p) && DigitsValue(p) == n
  {
    var d := NatToString(n);
    var p := PadStart2(d);
    if n < 10 {
      assert d == [DigitChar(n)];
      assert p == "0" + d;
      assert p[..1] == "0";
    } else {
      assert |d| <= 2 by {
        if |d| > 2 {
          DigitsLowerBound(d);
        }
      }
    }
  }

  /** A numeral of three or more digits without a leading zero is at least 100. */
  lemma DigitsLowerBound(d: string)
    requires IsDigits(d) && |d| >= 3 && d[0] != '0'
    ensures DigitsValue(d) >= 100
    decreases |d|
  {
    var front := d[..|d| - 1];
    if |d| == 3 {
      assert DigitsValue(front) == DigitsValue(front[..1]) * 10 + (front[1] as int - '0' as int);
      assert DigitsValue(front[..1]) == DigitsValue(front[..1][..0]) * 10 + (d[0] as int - '0' as int);
    } else {
      DigitsLowerBound(front);
    }
  }

  /** The label of a non-negative time reads back as its whole seconds. */
  lemma FormatTimeRoundTrip(x: real)
    requires x >= 0.0
    ensures ParseClock(FormatTime(Finite(x))) == Some(x.Floor)
  {
    ClockParts(x);
    LabelReadsBack(FormatTime(Finite(x)), Minutes(x), Seconds(x), x.Floor);
  }

  /** A label of minutes and seconds below 60 reads back as the seconds they add up to. */
  lemma LabelReadsBack(clock: string, m: int, s: int, total: int)
    requires 0 <= m && 0 <= s < 60 && 60 * m + s == total
    requires clock == ClockLabel(m, s)
    ensures ParseClock(clock) == Some(total)
  {
    ClockRoundTrip(m, s);
  }

  /** An `m:ss` label with seconds below 60 reads back as its total seconds. */
  lemma ClockRoundTrip(m: nat, s: nat)
    requires s < 60
    ensures ParseClock(ClockLabel(m, s)) == Some(60 * m + s)
  {
    var a := NatToString(m);
    var b := PadStart2(NatToString(s));
    PaddedValue(s);
    assert ClockLabel(m, s) == a + [':'] + b;
    ParseNumerals(a, b, m, s);
  }

  /** A label made of a numeral for `m`, a colon and two digits for `s` reads back as `60 * m + s`. */
  lemma ParseNumerals(a: string, b: string, m: nat, s: nat)
    requires IsDigits(a) && a != [] && IsDigits(b) && |b| == 2
    requires DigitsValue(a) == m && DigitsValue(b) == s
    ensures ParseClock(a + [':'] + b) == Some(60 * m + s)
  {
    SplitClock(a, b);
    ClockValue(a, b);
  }

  /** Digits and two digits are read as minutes and seconds. */
  lemma ClockValue(a: string, b: string)
    requires IsDigits(a) && a != [] && IsDigits(b) && |b| == 2
    ensures ClockOfParts([a, b]) == Some(60 * DigitsValue(a) + DigitsValue(b))
  {
    var parts := [a, b];
    assert |parts| == 2 && parts[0] == a && parts[1] == b;
  }

  /** A colon between two numerals splits the label into exactly those two. */
  lemma SplitClock(a: string, b: string)
    requires IsDigits(a) && IsDigits(b)
    ensures Split(a + [':'] + b, ':') == [a, b]
  {
    assert ':' !in a;
    assert ':' !in b;
    SplitAfterFirst(a, ':', b);
    SplitNoSep(b, ':');
  }

  /** Before metadata is known the label is `0:00`. */
  lemma UnknownTimeLabel()
    ensures ParseClock(FormatTime(NaN)) == Some(0)
  {
    assert FormatTime(NaN) == ClockLabel(0, 0);
    ClockRoundTrip(0, 0);
  }

  // ---------------------------------------------------------------------------
  // The download name
  // ---------------------------------------------------------------------------

  /** A character the file-name pattern keeps: an ASCII letter or digit, or a CJK unified ideograph. */
  predicate Kept(c: char) {
    ('a' <= c <= 'z') || ('A' <= c <= 'Z') || ('0' <= c <= '9') || ('一' <= c <= '龥')
  }

  /** The UTF-16 code units of a character: two for one above U+FFFF (a surrogate pair). */
  function CodeUnits(c: char): nat {
    if c as int >= 0x1_0000 then 2 else 1
  }

  /** What the replacement makes of one character: kept, or `_` for each of its code units. */
  function Replaced(c: char): string {
    if Kept(c) then [c] else if CodeUnits(c) == 2 then "__" else "_"
  }

  /** `title.replace(/[^a-zA-Z0-9一-龥]/g, '_')`. */
  function Sanitize(title: string): string {
    if title == [] then [] else Replaced(title[0]) + Sanitize(title[1..])
  }

  /** The number of UTF-16 code units of a string, its JavaScript `length`. */
  function Length16(s: string): nat {
    if s == [] then 0 else CodeUnits(s[0]) + Length16(s[1..])
  }

  /** A string the pattern leaves alone: only kept characters and `_`. */
  predicate Clean(s: string) {
    forall i :: 0 <= i < |s| ==> Kept(s[i]) || s[i] == '_'
  }

  /**
   * The replacement is one-for-one on code units: the result has the
   * title's JavaScript length, holds only kept characters and `_`, and
   * begins with the title's longest fully kept prefix.
   */
  lemma {:induction false} SanitizeShape(title: string)
    ensures |Sanitize(title)| == Length16(title)
    ensures Clean(Sanitize(title))
    ensures (forall i :: 0 <= i < |title| ==> Kept(title[i])) ==> Sanitize(title) == title
    decreases |title|
  {
    if title != [] {
      SanitizeShape(title[1..]);
      var head := Replaced(title[0]);
      var tail := Sanitize(title[1..]);
      assert Sanitize(title) == head + tail;
      forall i | 0 <= i < |head + tail|
        ensures Kept((head + tail)[i]) || (head + tail)[i] == '_'
      {
        if i >= |head| {
          assert (head + tail)[i] == tail[i - |head|];
        }
      }
      if forall i :: 0 <= i < |title| ==> Kept(title[i]) {
        assert forall i :: 0 <= i < |title[1..]| ==> Kept(title[1..][i]) by {
          forall i | 0 <= i < |title[1..]| ensures Kept(title[1..][i]) {
            assert title[1..][i] == title[i + 1];
          }
        }
        assert title == [title[0]] + title[1..];
      }
    }
  }

  /** A clean string is left unchanged. */
  lemma {:induction false} CleanUnchanged(s: string)
    requires Clean(s)
    ensures Sanitize(s) == s
    decreases |s|
  {
    if s != [] {
      assert Clean(s[1..]) by {
        forall i | 0 <= i < |s[1..]| ensures Kept(s[1..][i]) || s[1..][i] == '_' {
          assert s[1..][i] == s[i + 1];
        }
      }
      CleanUnchanged(s[1..]);
      assert s == [s[0]] + s[1..];
    }
  }

  /** Sanitising a sanitised title changes nothing. */
  lemma SanitizeIdempotent(title: string)
    ensures Sanitize(Sanitize(title)) == Sanitize(title)
  {
    SanitizeShape(title);
    CleanUnchanged(Sanitize(title));
  }

  /** The download file name: the sanitised title, then `.wav`. */
  function FileName(title: string): (name: string)
    ensures |name| == |Sanitize(title)| + 4 && name[|name| - 4..] == ".wav"
    ensures name[..|name| - 4] == Sanitize(title)
  {
    Sanitize(title) + ".wav"
  }

  /** The sanitised name for a title of one character above U+FFFF is two underscores. */
  lemma AstralCharacter(c: char)
    requires c as int >= 0x1_0000
    ensures FileName([c]) == "__.wav"
  {
    assert !Kept(c);
    assert Sanitize([c]) == "__" + Sanitize([]);
  }

  // ---------------------------------------------------------------------------
  // The component
  // ---------------------------------------------------------------------------

  /** A download the component triggers: the link's `href` and `download` name. */
  datatype Download = Download(href: string, fileName: string)

  /** `AudioPlayer`: the blob prop, the object URL, and the playback state. */
  class Player {
    var audioBlob: Option<Blob>
    var audioUrl: Option<string>
    var isPlaying: bool
    var duration: Time
    var currentTime: Time
    /** The object URLs revoked so far, in order. */
    var revoked: seq<string>
    /** The `title` prop of the latest render. */
    var title: string

    /**
     * An object URL exists exactly while there is a blob, and only then can
     * the audio play (the `<audio>` element is only rendered with both).
     */
    predicate Valid()
      reads this
    {
      (audioUrl.Some? <==> audioBlob.Some?) && (isPlaying ==> audioUrl.Some?)
    }

    /** The element is rendered, so `audioRef.current` is set. */
    predicate HasElement()
      reads this
    {
      audioBlob.Some? && audioUrl.Some?
    }

    constructor (titleProp: Option<string>)
      ensures Valid() && audioBlob == None && audioUrl == None && !isPlaying
      ensures duration == Finite(0.0) && currentTime == Finite(0.0) && revoked == []
      ensures title == titleProp.GetOr("生成的语音")
    {
      audioBlob := None;
      audioUrl := None;
      isPlaying := false;
      duration := Finite(0.0);
      currentTime := Finite(0.0);
      revoked := [];
      title := titleProp.GetOr("生成的语音");
    }

    /**
     * A render with a new `title` prop: only the title changes, so a later
     * download is named after it.
     */
    method SetTitle(titleProp: Option<string>)
      requires Valid()
      modifies this
      ensures Valid() && title == titleProp.GetOr("生成的语音")
      ensures audioBlob == old(audioBlob) && audioUrl == old(audioUrl) && isPlaying == old(isPlaying)
      ensures duration == old(duration) && currentTime == old(currentTime) && revoked == old(revoked)
    {
      title := titleProp.GetOr("生成的语音");
    }

    /**
     * The effect on a new `audioBlob`: the previous object URL is revoked; a
     * blob gets the new object URL `url`, no blob resets the player.
     */
    method SetBlob(blob: Option<Blob>, url: string)
      requires Valid()
      modifies this
      ensures Valid() && audioBlob == blob
      ensures revoked == old(revoked) + (if old(audioUrl).Some? then [old(audioUrl).value] else [])
      ensures blob.Some? ==> audioUrl == Some(url) && isPlaying == old(isPlaying)
                             && currentTime == old(currentTime) && duration == old(duration)
      ensures blob.None? ==> audioUrl == None && !isPlaying && currentTime == Finite(0.0) && duration == Finite(0.0)
      ensures title == old(title)
    {
      if audioUrl.Some? {
        revoked := revoked + [audioUrl.value];
      }
      audioBlob := blob;
      if blob.Some? {
        audioUrl := Some(url);
      } else {
        audioUrl := None;
        isPlaying := false;
        currentTime := Finite(0.0);
        duration := Finite(0.0);
      }
    }

    /** `loadedmetadata`: the element's duration. */
    method OnLoadedMetadata(elementDuration: Time)
      requires Valid() && HasElement()
      modifies this
      ensures Valid() && duration == elementDuration
      ensures isPlaying == old(isPlaying) && currentTime == old(currentTime) && audioUrl == old(audioUrl)
      ensures audioBlob == old(audioBlob) && revoked == old(revoked) && title == old(title)
    {
      duration := elementDuration;
    }

    /** `timeupdate`: the element's position. */
    method OnTimeUpdate(elementTime: Time)
      requires Valid() && HasElement()
      modifies this
      ensures Valid() && currentTime == elementTime
      ensures isPlaying == old(isPlaying) && duration == old(duration) && audioUrl == old(audioUrl)
      ensures audioBlob == old(audioBlob) && revoked == old(revoked) && title == old(title)
    {
      currentTime := elementTime;
    }

    /** `ended`: playback stops and the position returns to the start. */
    method OnEnded()
      requires Valid() && HasElement()
      modifies this
      ensures Valid() && !isPlaying && currentTime == Finite(0.0)
      ensures duration == old(duration) && audioUrl == old(audioUrl)
      ensures audioBlob == old(audioBlob) && revoked == old(revoked) && title == old(title)
      ensures FormatTime(currentTime) == "0:00"
    {
      isPlaying := false;
      currentTime := Finite(0.0);
    }

    /** `error`: playback stops. */
    method OnError()
      requires Valid() && HasElement()
      modifies this
      ensures Valid() && !isPlaying
      ensures currentTime == old(currentTime) && duration == old(duration) && audioUrl == old(audioUrl)
      ensures audioBlob == old(audioBlob) && revoked == old(revoked) && title == old(title)
    {
      isPlaying := false;
    }

    /**
     * `togglePlay()`, the awaited `audio.play()` succeeding or not as
     * `playSucceeds` says: nothing without the element and a URL; a playing
     * player pauses; a paused one plays when `play()` resolves and stays
     * paused when it rejects.
     */
    method TogglePlay(playSucceeds: bool) returns (paused: bool, played: bool)
      requires Valid()
      modifies this
      ensures Valid()
      ensures !HasElement() ==> !paused && !played && isPlaying == old(isPlaying)
      ensures HasElement() && old(isPlaying) ==> paused && !played && !isPlaying
      ensures HasElement() && !old(isPlaying) ==> !paused && played && isPlaying == playSucceeds
      ensures currentTime == old(currentTime) && audioUrl == old(audioUrl) && audioBlob == old(audioBlob)
      ensures duration == old(duration) && revoked == old(revoked) && title == old(title)
    {
      paused, played := false, false;
      if !HasElement() {
        return;
      }
      if isPlaying {
        paused := true;
        isPlaying := false;
      } else {
        played := true;
        if playSucceeds {
          isPlaying := true;
        } else {
          isPlaying := false;
        }
      }
    }

    /** `handleSeek`: the element and the shown position both move to `newTime`. */
    method HandleSeek(newTime: Time) returns (seeked: bool)
      requires Valid()
      modifies this
      ensures Valid()
      ensures seeked == HasElement()
      ensures seeked ==> currentTime == newTime
      ensures !seeked ==> currentTime == old(currentTime)
      ensures isPlaying == old(isPlaying) && audioUrl == old(audioUrl)
      ensures audioBlob == old(audioBlob) && duration == old(duration) && revoked == old(revoked) && title == old(title)
    {
      seeked := HasElement();
      if seeked {
        currentTime := newTime;
      }
    }

    /** `downloadAudio()`: a link to the object URL named after the sanitised title, when there is audio. */
    method DownloadAudio() returns (d: Option<Download>)
      requires Valid()
      ensures audioUrl.None? || audioBlob.None? ==> d == None
      ensures audioUrl.Some? && audioBlob.Some? ==> d == Some(Download(audioUrl.value, FileName(title)))
    {
      if audioUrl.None? || audioBlob.None? {
        return None;
      }
      d := Some(Download(audioUrl.value, FileName(title)));
    }
  }

  /**
   * Playback events leave the download alone: a player shown `b` under `u`
   * with the default title, after a `timeupdate`, downloads `u` under the
   * default title's file name.
   */
  method DownloadAfterPlayback(b: Blob, u: string, t: Time) returns (d: Option<Download>)
    ensures d == Some(Download(u, FileName("生成的语音")))
  {
    var p := new Player(None);
    p.SetBlob(Some(b), u);
    p.OnTimeUpdate(t);
    d := p.DownloadAudio();
  }

  /**
   * Each blob's object URL is revoked once the blob is replaced: after
   * showing `b1` under `u1` and then `b2`, `u1` is the last URL revoked and
   * `u2` is the one in use.
   */
  method ReplaceBlob(b1: Blob, u1: string, b2: Option<Blob>, u2: string) returns (p: Player)
    ensures p.revoked == [u1]
    ensures p.audioBlob == b2 && (b2.Some? ==> p.audioUrl == Some(u2))
  {
    p := new Player(None);
    p.SetBlob(Some(b1), u1);
    p.SetBlob(b2, u2);
  }
}
