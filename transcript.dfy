/** The transcript panel beside the player: the text-track `change` listener,
    `showTranscript`, `disableTranscript`, `oncuechange` and the
    click-to-seek handler of each transcript line. */
module Transcript {
  import opened Common
  import opened ResolutionSwitcher

  datatype Mode = Showing | Hidden | Disabled

  datatype Cue = Cue(startTime: real, endTime: real, text: string)

  /** A text track as a listener reads it. `cues` is `null` (here `None`)
      until the engine has loaded the track. */
  datatype Track = Track(mode: Mode, cues: Option<seq<Cue>>)

  /** One `<span class='cue' begin='...'>` line of the transcript; `key` is the
      `begin` attribute, the cue's start time. */
  datatype Row = Row(key: real, text: string)

  predicate IsShowing(t: Track) {
    t.mode == Showing
  }

  /** `!cues || cues.length === 0`: the render schedules itself again. */
  predicate NeedsRetry(t: Track) {
    t.cues.None? || |t.cues.value| == 0
  }

  /** A showing track whose cue list is still `null`: the loop over
      `cues.length` raises a TypeError. */
  predicate Throws(t: Track) {
    t.mode == Showing && t.cues.None?
  }

  /** The transcript lines show the cues one for one, in cue order. */
  ghost predicate Renders(rows: seq<Row>, cues: seq<Cue>) {
    |rows| == |cues| &&
    forall i :: 0 <= i < |cues| ==> rows[i] == Row(cues[i].startTime, cues[i].text)
  }

  /** Index of the last showing track, or -1 when none shows. */
  function LastShowing(ts: seq<Track>): (k: int)
    ensures -1 <= k < |ts|
    ensures k == -1 <==> forall i :: 0 <= i < |ts| ==> !IsShowing(ts[i])
    ensures k >= 0 ==> IsShowing(ts[k]) && forall i :: k < i < |ts| ==> !IsShowing(ts[i])
  {
    if |ts| == 0 then -1
    else if IsShowing(ts[|ts| - 1]) then |ts| - 1
    else LastShowing(ts[..|ts| - 1])
  }

  /** The showing tracks without cues, in order: those whose render asks for a retry. */
  function RetriedTracks(ts: seq<Track>): (r: seq<Track>)
    ensures |r| <= |ts|
    ensures forall t :: t in r ==> t in ts && IsShowing(t) && NeedsRetry(t)
  {
    if |ts| == 0 then []
    else
      var last := ts[|ts| - 1];
      RetriedTracks(ts[..|ts| - 1]) + (if IsShowing(last) && NeedsRetry(last) then [last] else [])
  }

  /** Conversely, every showing track whose cues are missing or empty is retried. */
  lemma {:induction false} RetriedTracksComplete(ts: seq<Track>)
    ensures forall i :: 0 <= i < |ts| && IsShowing(ts[i]) && NeedsRetry(ts[i]) ==> ts[i] in RetriedTracks(ts)
  {
    if |ts| > 0 {
      var front := ts[..|ts| - 1];
      RetriedTracksComplete(front);
      assert forall i :: 0 <= i < |front| ==> front[i] == ts[i];
    }
  }

  /** The retries keep the order of the tracks: those of an earlier part of
      the list come before those of a later part. */
  lemma {:induction false} RetriedTracksSplit(a: seq<Track>, b: seq<Track>)
    ensures RetriedTracks(a + b) == RetriedTracks(a) + RetriedTracks(b)
  {
    if |b| > 0 {
      var front := b[..|b| - 1];
      RetriedTracksSplit(a, front);
      assert (a + b)[..|a + b| - 1] == a + front;
    } else {
      assert a + b == a;
    }
  }

  /** What one more track adds to the retries. */
  lemma RetriedTracksStep(ts: seq<Track>, t: nat)
    requires t < |ts|
    ensures RetriedTracks(ts[..t + 1]) ==
              RetriedTracks(ts[..t]) + (if IsShowing(ts[t]) && NeedsRetry(ts[t]) then [ts[t]] else [])
  {
    assert ts[..t + 1][..t] == ts[..t];
  }

  /** Index of the first row keyed `key` (the element jQuery's `offset()`
      measures), or `|rows|` when there is none. */
  function FirstRowKeyed(rows: seq<Row>, key: real): (r: nat)
    ensures r <= |rows|
    ensures r < |rows| ==> rows[r].key == key
    ensures forall j :: 0 <= j < r ==> rows[j].key != key
  {
    FirstIndex(rows, (row: Row) => row.key == key)
  }

  /** Some cue of `active` starts at `key`. */
  ghost predicate IsActive(key: real, active: seq<Cue>) {
    exists j :: 0 <= j < |active| && active[j].startTime == key
  }

  /** The transcript element together with the player properties the
      transcript code sets. */
  class TranscriptPanel {
    const player: Player
    var rows: seq<Row>
    /** Indexes of the rows carrying the class `current`. */
    var current: set<nat>
    /** The class `transcript-enabled` is on the player container. */
    var enabledMarker: bool
    /** The player's width, as passed to `player.width(...)`. */
    var width: string
    var scrollTop: int
    /** Tracks whose `showTranscript` was scheduled again with `setTimeout`. */
    var retries: seq<Track>

    ghost predicate Valid()
      reads this
    {
      forall i :: i in current ==> i < |rows|
    }

    constructor (player: Player, width: string)
      ensures Valid() && this.player == player && this.width == width
      ensures rows == [] && current == {} && !enabledMarker && scrollTop == 0 && retries == []
    {
      this.player := player;
      this.width := width;
      rows := [];
      current := {};
      enabledMarker := false;
      scrollTop := 0;
      retries := [];
    }

    /** `showTranscript(track)`. A track that is not showing (a stale retry)
        is ignored. A missing or empty cue list schedules a retry without
        returning: an empty list renders an empty transcript, a `null` one
        raises. Otherwise one row per cue replaces the transcript, which
        drops every highlight, and the player narrows to 61%. */
    method ShowTranscript(track: Track) returns (raised: bool)
      requires Valid()
      modifies this`rows, this`current, this`enabledMarker, this`width, this`retries
      ensures Valid()
      ensures raised <==> Throws(track)
      ensures retries == old(retries) + (if IsShowing(track) && NeedsRetry(track) then [track] else [])
      ensures !IsShowing(track) || raised ==>
                rows == old(rows) && current == old(current) &&
                enabledMarker == old(enabledMarker) && width == old(width)
      ensures IsShowing(track) && !raised ==>
                Renders(rows, track.cues.value) && current == {} && enabledMarker && width == "61%"
    {
      raised := false;
      if !IsShowing(track) {
        return;
      }
      if NeedsRetry(track) {
        retries := retries + [track];
      }
      if track.cues.None? {
        raised := true;
        return;
      }
      var cues := track.cues.value;
      var content: seq<Row> := [];
      var c := 0;
      while c < |cues|
        invariant 0 <= c <= |cues|
        invariant Renders(content, cues[..c])
      {
        content := content + [Row(cues[c].startTime, cues[c].text)];
        c := c + 1;
      }
      assert cues[..c] == cues;
      width := "61%";
      enabledMarker := true;
      rows := content;
      current := {};
    }

    /** `disableTranscript()`: the rows and their highlights stay as they are. */
    method DisableTranscript()
      modifies this`enabledMarker, this`width
      ensures !enabledMarker && width == "100%"
    {
      enabledMarker := false;
      width := "100%";
    }

    /** The listener on the track list's `change` event: render the showing
        tracks, then disable the transcript when none shows. A TypeError
        raised by a render ends the listener before the disabling step. */
    method OnTrackChange(tracks: seq<Track>) returns (raised: bool)
      requires Valid()
      modifies this`rows, this`current, this`enabledMarker, this`width, this`retries
      ensures Valid()
      ensures raised <==> FirstIndex(tracks, Throws) < |tracks|
      ensures !raised ==>
                (enabledMarker <==> exists i :: 0 <= i < |tracks| && IsShowing(tracks[i]))
      ensures var k := FirstIndex(tracks, Throws);
              retries == old(retries) + RetriedTracks(tracks[..if raised then k + 1 else k])
      ensures var k := FirstIndex(tracks, Throws);
              var l := LastShowing(tracks[..k]);
              l >= 0 ==> tracks[l].cues.Some? && Renders(rows, tracks[l].cues.value) &&
                         current == {} && enabledMarker && width == "61%"
      ensures var k := FirstIndex(tracks, Throws);
              LastShowing(tracks[..k]) < 0 ==>
                rows == old(rows) && current == old(current) &&
                (if raised then enabledMarker == old(enabledMarker) && width == old(width)
                 else !enabledMarker && width == "100%")
    {
      var enable;
      enable, raised := RenderShowing(tracks, FirstIndex(tracks, Throws));
      if raised {
        return;
      }
      assert tracks[..|tracks|] == tracks;
      if !enable {
        DisableTranscript();
      }
    }

    /** The loop of the `change` listener: every showing track is rendered
        in turn, so the last one wins, until a render raises. `enable` says
        whether some track was showing. */
    method RenderShowing(tracks: seq<Track>, ghost k: nat) returns (enable: bool, raised: bool)
      requires Valid() && k == FirstIndex(tracks, Throws)
      modifies this`rows, this`current, this`enabledMarker, this`width, this`retries
      ensures Valid()
      ensures raised <==> k < |tracks|
      ensures enable <==> LastShowing(tracks[..k]) >= 0
      ensures retries == old(retries) + RetriedTracks(tracks[..if raised then k + 1 else k])
      ensures var l := LastShowing(tracks[..k]);
              l >= 0 ==> tracks[l].cues.Some? && Renders(rows, tracks[l].cues.value) &&
                         current == {} && enabledMarker && width == "61%"
      ensures LastShowing(tracks[..k]) < 0 ==>
                rows == old(rows) && current == old(current) &&
                enabledMarker == old(enabledMarker) && width == old(width)
    {
      enable := false;
      raised := false;
      var t := 0;
      while t < |tracks|
        invariant 0 <= t <= k && !raised
        invariant Valid()
        invariant enable <==> LastShowing(tracks[..t]) >= 0
        invariant retries == old(retries) + RetriedTracks(tracks[..t])
        invariant LastShowing(tracks[..t]) >= 0 ==>
                    tracks[LastShowing(tracks[..t])].cues.Some? &&
                    Renders(rows, tracks[LastShowing(tracks[..t])].cues.value) &&
                    current == {} && enabledMarker && width == "61%"
        invariant LastShowing(tracks[..t]) < 0 ==>
                    rows == old(rows) && current == old(current) &&
                    enabledMarker == old(enabledMarker) && width == old(width)
      {
        assert tracks[..t + 1][..t] == tracks[..t];
        RetriedTracksStep(tracks, t);
        if IsShowing(tracks[t]) {
          raised := ShowTranscript(tracks[t]);
          if raised {
            assert t == k;
            return;
          }
          enable := true;
        }
        t := t + 1;
      }
      assert t == k;
    }

    /** `oncuechange`: the highlight moves to exactly the rows whose key is the
        start time of an active cue. With at least one active cue the panel
        scrolls to the first row keyed by the last active cue; when no row has
        that key `offset()` is undefined and reading its `top` raises. */
    method OnCueChange(active: seq<Cue>, containerTop: int, rowTop: nat -> int) returns (raised: bool)
      requires Valid()
      modifies this`current, this`scrollTop
      ensures Valid()
      ensures current == set i | 0 <= i < |rows| && IsActive(rows[i].key, active)
      ensures |active| == 0 ==> !raised && scrollTop == old(scrollTop)
      ensures |active| > 0 ==>
                var key := active[|active| - 1].startTime;
                var r := FirstRowKeyed(rows, key);
                (raised <==> r == |rows|) &&
                scrollTop == (if r < |rows| then old(scrollTop) - containerTop + rowTop(r) else old(scrollTop))
    {
      current := {};
      var c := 0;
      while c < |active|
        modifies this`current
        invariant 0 <= c <= |active|
        invariant current == set i | 0 <= i < |rows| && IsActive(rows[i].key, active[..c])
      {
        var key := active[c].startTime;
        ghost var before := current;
        current := current + set i | 0 <= i < |rows| && rows[i].key == key;
        forall i | 0 <= i < |rows|
          ensures IsActive(rows[i].key, active[..c + 1]) <==> i in before || rows[i].key == key
        {
          if IsActive(rows[i].key, active[..c]) {
            var j :| 0 <= j < c && active[..c][j].startTime == rows[i].key;
            assert active[..c + 1][j] == active[..c][j];
          }
          if IsActive(rows[i].key, active[..c + 1]) {
            var j :| 0 <= j < c + 1 && active[..c + 1][j].startTime == rows[i].key;
            if j < c {
              assert active[..c][j] == active[..c + 1][j];
            }
          }
          if rows[i].key == key {
            assert active[..c + 1][c].startTime == key;
          }
        }
        c := c + 1;
      }
      assert active[..c] == active;
      raised := false;
      if |active| > 0 {
        var key := active[|active| - 1].startTime;
        var r := FirstRowKeyed(rows, key);
        if r < |rows| {
          scrollTop := scrollTop - containerTop + rowTop(r);
        } else {
          raised := true;
        }
      }
    }

    /** The click handler bound to every transcript line: seek to the line's key. */
    method ClickRow(i: nat)
      requires i < |rows|
      modifies player`time
      ensures player.time == rows[i].key
    {
      player.SetCurrentTime(rows[i].key);
    }
  }
}
