/** The replay recorder: the frames and session metadata a session keeps, the
    slug that makes the map key safe for a file name, and the file that
    `save_student_replay` writes at session end. */
module Replay {
  import opened Json
  import opened StudentPlanner

  /** The directory the replay files go to. */
  const ReplayDir := "student_replays"

  /** One answered observation: its time, the raw packet and the command sent. */
  datatype Frame = Frame(t: Value, obs: Value, cmd: Command)

  /** The session metadata dict. Keys the source adds only later (the map
      extent and slot count, the end time and frame count) are `None` until
      they are set. */
  datatype Meta = Meta(
    host: string,
    port: int,
    startTime: string,
    mapKey: Value,
    mapName: Value,
    mapExtent: Option<Value>,
    slotsTotal: Option<nat>,
    endTime: Option<string>,
    frameCount: Option<nat>)

  /** What the file system does when asked: whether `os.makedirs` and the
      `open`/`json.dump` of the replay file succeed. */
  datatype Disk = Disk(makeDirOk: bool, writeOk: bool)

  /** A replay file: where it is written and the `{meta, frames}` it holds. */
  datatype ReplayFile = ReplayFile(path: string, meta: Meta, frames: seq<Frame>)

  // ---------------------------------------------------------------------
  // Slug

  predicate IsAlnum(c: char)
  {
    'a' <= c <= 'z' || 'A' <= c <= 'Z' || '0' <= c <= '9'
  }

  function Lower(c: char): char
  {
    if 'A' <= c <= 'Z' then (c as int + 32) as char else c
  }

  /** A character that may appear in a slug: lower-case alphanumeric or `_`. */
  predicate IsSlugChar(c: char)
  {
    'a' <= c <= 'z' || '0' <= c <= '9' || c == '_'
  }

  predicate HasAlnum(text: string)
  {
    exists k :: 0 <= k < |text| && IsAlnum(text[k])
  }

  /** Index of the first alphanumeric character. */
  function FirstAlnum(text: string): (i: nat)
    requires HasAlnum(text)
    ensures i < |text| && IsAlnum(text[i])
    ensures forall k :: 0 <= k < i ==> !IsAlnum(text[k])
  {
    if IsAlnum(text[0]) then 0
    else
      assert HasAlnum(text[1..]) by {
        var k :| 0 <= k < |text| && IsAlnum(text[k]);
        assert text[1..][k - 1] == text[k];
      }
      1 + FirstAlnum(text[1..])
  }

  /** Index of the last alphanumeric character. */
  function LastAlnum(text: string): (i: nat)
    requires HasAlnum(text)
    ensures i < |text| && IsAlnum(text[i])
    ensures forall k :: i < k < |text| ==> !IsAlnum(text[k])
  {
    var n := |text| - 1;
    if IsAlnum(text[n]) then n
    else
      assert HasAlnum(text[..n]) by {
        var k :| 0 <= k < |text| && IsAlnum(text[k]);
        assert text[..n][k] == text[k];
      }
      LastAlnum(text[..n])
  }

  /** `ch.lower() if str(ch).isalnum() else "_"`. */
  function SlugChar(c: char): (r: char)
    ensures IsSlugChar(r)
    ensures r == '_' <==> !IsAlnum(c)
  {
    if IsAlnum(c) then Lower(c) else '_'
  }

  /** The joined comprehension, before stripping. */
  function SlugChars(text: string): (r: string)
    ensures |r| == |text|
  {
    seq(|text|, i requires 0 <= i < |text| => SlugChar(text[i]))
  }

  /** `s.lstrip("_")`: drops the leading underscores. */
  function StripLeading(s: string): (r: string)
    ensures |r| <= |s|
  {
    if s != [] && s[0] == '_' then StripLeading(s[1..]) else s
  }

  /** `s.rstrip("_")`: drops the trailing underscores. */
  function StripTrailing(s: string): (r: string)
    ensures |r| <= |s|
  {
    if s != [] && s[|s| - 1] == '_' then StripTrailing(s[..|s| - 1]) else s
  }

  /** `_slugify`: every slug is non-empty, has no `_` at either end and
      holds only lower-case alphanumerics and `_`. */
  function Slugify(text: string): (r: string)
    ensures IsSlug(r)
  {
    var stripped := StripTrailing(StripLeading(SlugChars(text)));
    SlugifyStrips(text);
    if stripped == [] then "session"
    else
      var m := SlugChars(text);
      assert forall k :: 0 <= k < |m| ==> IsSlugChar(m[k]);
      SpanIsSlug(m, FirstAlnum(text), LastAlnum(text) + 1);
      stripped
  }

  /** What lstrip removes is a run of underscores, and what it keeps is a
      suffix that does not start with one. */
  lemma {:induction false} StripLeadingSpec(s: string)
    ensures var r := StripLeading(s);
            && r == s[|s| - |r|..]
            && (forall k :: 0 <= k < |s| - |r| ==> s[k] == '_')
            && (r != [] ==> r[0] != '_')
  {
    if s != [] && s[0] == '_' {
      StripLeadingSpec(s[1..]);
    }
  }

  /** What rstrip removes is a run of underscores, and what it keeps is a
      prefix that does not end with one. */
  lemma {:induction false} StripTrailingSpec(s: string)
    ensures var r := StripTrailing(s);
            && r == s[..|r|]
            && (forall k :: |r| <= k < |s| ==> s[k] == '_')
            && (r != [] ==> r[|r| - 1] != '_')
  {
    if s != [] && s[|s| - 1] == '_' {
      StripTrailingSpec(s[..|s| - 1]);
    }
  }

  /** What rstrip keeps of the lstripped text is the span `m[a..a + |t|]`. */
  lemma StripSpanIsSlice(m: string)
    ensures var a := |m| - |StripLeading(m)|;
            var t := StripTrailing(StripLeading(m));
            a + |t| <= |m| && t == m[a..a + |t|]
  {
    var lead := StripLeading(m);
    var a := |m| - |lead|;
    StripLeadingSpec(m);
    StripTrailingSpec(lead);
    assert m[a..][..|StripTrailing(lead)|] == m[a..a + |StripTrailing(lead)|];
  }

  /** Everything after the span is an underscore. */
  lemma StripSpanAfter(m: string)
    ensures var a := |m| - |StripLeading(m)|;
            var t := StripTrailing(StripLeading(m));
            forall k :: a + |t| <= k < |m| ==> m[k] == '_'
  {
    var lead := StripLeading(m);
    var a := |m| - |lead|;
    StripLeadingSpec(m);
    StripTrailingSpec(lead);
    forall k | a + |StripTrailing(lead)| <= k < |m|
      ensures m[k] == '_'
    {
      assert m[k] == lead[k - a];
    }
  }

  /** A non-empty span neither starts nor ends with an underscore. */
  lemma StripSpanEnds(m: string)
    ensures var a := |m| - |StripLeading(m)|;
            var t := StripTrailing(StripLeading(m));
            t != [] ==> a + |t| <= |m| && m[a] != '_' && m[a + |t| - 1] != '_'
  {
    var lead := StripLeading(m);
    var t := StripTrailing(lead);
    StripLeadingSpec(m);
    StripTrailingSpec(lead);
    StripSpanIsSlice(m);
    if t != [] {
      assert m[|m| - |lead|] == lead[0] && lead[0] == t[0];
    }
  }

  /** Stripping both ends leaves a span `m[a..a + |t|]` with only underscores
      outside it and no underscore at either of its ends. */
  lemma StripSpan(m: string)
    ensures var a := |m| - |StripLeading(m)|;
            var t := StripTrailing(StripLeading(m));
            && a + |t| <= |m| && t == m[a..a + |t|]
            && (forall k :: 0 <= k < a ==> m[k] == '_')
            && (forall k :: a + |t| <= k < |m| ==> m[k] == '_')
            && (t != [] ==> m[a] != '_' && m[a + |t| - 1] != '_')
  {
    StripLeadingSpec(m);
    StripSpanIsSlice(m);
    StripSpanAfter(m);
    StripSpanEnds(m);
  }

  /** Stripping the underscores off the joined comprehension keeps exactly
      the span from the first to the last alphanumeric character. */
  lemma SlugifyStrips(text: string)
    ensures var stripped := StripTrailing(StripLeading(SlugChars(text)));
            && (stripped == [] <==> !HasAlnum(text))
            && (HasAlnum(text) ==> stripped == SlugChars(text)[FirstAlnum(text)..LastAlnum(text) + 1])
  {
    var m := SlugChars(text);
    var a := |m| - |StripLeading(m)|;
    var t := StripTrailing(StripLeading(m));
    var b := a + |t|;
    StripSpan(m);
    if HasAlnum(text) {
      var f, l := FirstAlnum(text), LastAlnum(text);
      assert m[f] != '_' && m[l] != '_';
      assert a <= f < b && a <= l < b;
      assert a == f by {
        assert m[a] != '_';
      }
      assert b - 1 == l by {
        assert m[b - 1] != '_';
      }
    }
  }

  /** A well-formed slug: not empty, no `_` at either end, and only
      lower-case alphanumerics and `_`. */
  predicate IsSlug(s: string)
  {
    && s != [] && s[0] != '_' && s[|s| - 1] != '_'
    && forall k :: 0 <= k < |s| ==> IsSlugChar(s[k])
  }

  /** A span of slug characters with no `_` at either end is a slug. */
  lemma SpanIsSlug(m: string, lo: nat, hi: nat)
    requires lo < hi <= |m|
    requires forall k :: 0 <= k < |m| ==> IsSlugChar(m[k])
    requires m[lo] != '_' && m[hi - 1] != '_'
    ensures IsSlug(m[lo..hi])
  {
    assert m[lo..hi][0] == m[lo] && m[lo..hi][hi - lo - 1] == m[hi - 1];
  }

  /** The slug is well formed; it is "session" when the text has no
      alphanumeric character, and otherwise the lower-cased span from the
      first to the last alphanumeric character, never longer than the text. */
  lemma SlugifySpec(text: string)
    ensures !HasAlnum(text) ==> Slugify(text) == "session"
    ensures HasAlnum(text) ==> Slugify(text) == SlugChars(text)[FirstAlnum(text)..LastAlnum(text) + 1]
    ensures HasAlnum(text) ==> |Slugify(text)| <= |text|
  {
    SlugifyStrips(text);
  }

  /** The slug of the three examples: underscores are not collapsed. */
  lemma SlugExamples()
    ensures Slugify("Lot #7!") == "lot__7"
    ensures Slugify("") == "session"
    ensures Slugify("___") == "session"
    ensures Slugify("session") == "session"
  {
    var lot := "Lot #7!";
    assert SlugChars(lot) == "lot__7_";
    assert StripLeading("lot__7_") == "lot__7_";
    assert StripTrailing("lot__7_") == StripTrailing("lot__7") == "lot__7";
    assert SlugChars("") == "";
    assert SlugChars("___") == "___";
    assert StripLeading("___") == StripLeading("__") == StripLeading("_") == StripLeading("") == "";
    SessionIsItsOwnSlug();
  }

  lemma SessionIsItsOwnSlug()
    ensures Slugify("session") == "session"
  {
    assert SlugChars("session") == "session";
    assert StripLeading("session") == "session";
    assert StripTrailing("session") == "session";
  }

  // ---------------------------------------------------------------------
  // File name

  /** `meta.get("map_key") or meta.get("map_name") or "session"`. */
  function ChosenKey(meta: Meta): (r: Value)
    ensures Truthy(r)
  {
    if Truthy(meta.mapKey) then meta.mapKey
    else if Truthy(meta.mapName) then meta.mapName
    else Str("session")
  }

  /** `str(key)`: a string is itself and `True` prints as "True"; how other
      values print is Python's own formatting, supplied as `render`. */
  function KeyText(key: Value, render: Value -> string): (r: string)
    ensures key.Str? ==> r == key.s
    ensures key == Bool(true) ==> r == "True"
  {
    if key.Str? then key.s
    else if key == Bool(true) then "True"
    else render(key)
  }

  /** `f"{timestamp}_{_slugify(map_key)}.json"`: the part between the
      timestamp and ".json" is always a well-formed slug. */
  function ReplayFileName(timestamp: string, meta: Meta, render: Value -> string): (r: string)
    ensures exists slug :: IsSlug(slug) && r == timestamp + "_" + slug + ".json"
  {
    var slug := Slugify(KeyText(ChosenKey(meta), render));
    assert IsSlug(slug);
    timestamp + "_" + slug + ".json"
  }

  /** The file name follows the fallback chain map key, map name, "session". */
  lemma ReplayFileNameChain(timestamp: string, meta: Meta, render: Value -> string)
    ensures meta.mapKey.Str? && meta.mapKey.s != [] ==>
              ReplayFileName(timestamp, meta, render) == timestamp + "_" + Slugify(meta.mapKey.s) + ".json"
    ensures !Truthy(meta.mapKey) && meta.mapName.Str? && meta.mapName.s != [] ==>
              ReplayFileName(timestamp, meta, render) == timestamp + "_" + Slugify(meta.mapName.s) + ".json"
    ensures !Truthy(meta.mapKey) && !Truthy(meta.mapName) ==>
              ReplayFileName(timestamp, meta, render) == timestamp + "_session.json"
  {
    if !Truthy(meta.mapKey) && !Truthy(meta.mapName) {
      assert ChosenKey(meta) == Str("session");
      SessionIsItsOwnSlug();
      assert timestamp + "_" + "session" + ".json" == timestamp + "_session.json";
    }
  }

  /** `save_student_replay`: nothing when there are no frames or when the
      directory cannot be made or the file cannot be written; otherwise the
      file `student_replays/<timestamp>_<slug>.json` holding meta and frames. */
  function SaveReplay(frames: seq<Frame>, meta: Meta, timestamp: string, disk: Disk,
                      render: Value -> string): (r: Option<ReplayFile>)
    ensures frames == [] ==> r == None
    ensures r.Some? <==> frames != [] && disk.makeDirOk && disk.writeOk
    ensures r.Some? ==> r.value.frames == frames && r.value.meta == meta
    ensures r.Some? ==> r.value.path == ReplayDir + "/" + ReplayFileName(timestamp, meta, render)
  {
    if frames == [] then None
    else if !disk.makeDirOk then None
    else
      var path := ReplayDir + "/" + ReplayFileName(timestamp, meta, render);
      if disk.writeOk then Some(ReplayFile(path, meta, frames)) else None
  }
}
