// Header, sum of the reservation and fields of each message, spelled out the way the
// function that emits it uses them.

module Layouts {
  import opened Bytes
  import opened Messages

  ghost predicate Layout(m: Message, header: byte, sum: nat, fields: seq<Field>) {
    Header(m) == header && Sum(m) == sum && Fields(m) == fields && Image(m) == []
  }

  lemma StrLayout(time: u64, channel: u32, str: cstring)
    ensures Layout(Str(time, channel, str), 0x01, 1 + 4 + 10 + 5 + |str|,
                   [Long(AsInt64(time)), Int(AsInt32(channel)), Rest(str)])
  {
  }

  lemma StrColorLayout(time: u64, channel: u32, color: u32, str: cstring)
    ensures Layout(StrColor(time, channel, color, str), 0x02, 1 + 4 + 10 + 5 + 4 + |str|,
                   [Long(AsInt64(time)), Int(AsInt32(channel)), Color(color), Rest(str)])
  {
  }

  lemma NameChannelLayout(time: u64, channel: u32, group: u32, str: cstring)
    ensures Layout(NameChannel(time, channel, group, str), 0x03, 1 + 4 + 10 + 2 * 5 + |str|,
                   [Long(AsInt64(time)), Int(AsInt32(channel)), Int(AsInt32(group)), Rest(str)])
  {
  }

  lemma NameGroupLayout(time: u64, group: u32, str: cstring)
    ensures Layout(NameGroup(time, group, str), 0x04, 1 + 4 + 10 + 5 + |str|,
                   [Long(AsInt64(time)), Int(AsInt32(group)), Rest(str)])
  {
  }

  lemma MarkerLayout(time: u64, str: cstring)
    ensures Layout(Marker(time, str), 0x06, 1 + 4 + 10 + |str|,
                   [Long(AsInt64(time)), Rest(str)])
  {
  }

  lemma MarkerColorLayout(time: u64, color: u32, str: cstring)
    ensures Layout(MarkerColor(time, color, str), 0x07, 1 + 4 + 10 + 4 + |str|,
                   [Long(AsInt64(time)), Color(color), Rest(str)])
  {
  }

  lemma CounterValueLayout(time: u64, core: u32, id: u32, value: u32)
    ensures Layout(CounterValue(time, core, id, value), 0x09, 1 + 4 + 10 + 3 * 5,
                   [Long(AsInt64(time)), Int(AsInt32(core)), Int(AsInt32(id)), Int(AsInt32(value))])
  {
  }

  lemma ActivitySwitchLayout(time: u64, core: u32, id: u32, activity: u32, tid: u32)
    ensures Layout(ActivitySwitch(time, core, id, activity, tid), 0x0a, 1 + 4 + 10 + 4 * 5,
                   [Long(AsInt64(time)), Int(AsInt32(core)), Int(AsInt32(id)), Int(AsInt32(activity)),
                    Int(AsInt32(tid))])
  {
  }

  lemma CamTrackLayout(view: u32, track: u32, parent: u32, name: cstring)
    ensures Layout(CamTrack(view, track, parent, name), 0x0b, 1 + 4 + 3 * 5 + |name|,
                   [Int(AsInt32(view)), Int(AsInt32(track)), Int(AsInt32(parent)), Rest(name)])
  {
  }

  lemma CamViewNameLayout(view: u32, name: cstring)
    ensures Layout(CamViewName(view, name), 0x0d, 1 + 4 + 5 + |name|,
                   [Int(AsInt32(view)), Rest(name)])
  {
  }

  lemma CamJobStartLayout(view: u32, job: u32, name: cstring, track: u32, time: u64, color: u32)
    ensures Layout(CamJobStart(view, job, track, time, color, name), 0x0e, 1 + 4 + 3 * 5 + 10 + 4 + |name|,
                   [Int(AsInt32(view)), Int(AsInt32(job)), Int(AsInt32(track)), Long(AsInt64(time)), Color(color),
                    Rest(name)])
  {
  }

  lemma CamJobStopLayout(view: u32, job: u32, time: u64)
    ensures Layout(CamJobStop(view, job, time), 0x10, 1 + 4 + 2 * 5 + 10,
                   [Int(AsInt32(view)), Int(AsInt32(job)), Long(AsInt64(time))])
  {
  }

  lemma VisualLayout(time: u64, str: cstring, image: seq<byte>)
    ensures Header(Visual(time, str, image)) == 0x05 && Image(Visual(time, str, image)) == image
    ensures Sum(Visual(time, str, image)) == 1 + 4 + 10 + |str| + 1
    ensures Fields(Visual(time, str, image)) == [Long(AsInt64(time)), Text(str), Nul]
  {
  }

  lemma CamJobLayout(view: u32, job: u32, name: cstring, track: u32, start: u64, duration: u64, color: u32,
                     primary: u32, deps: seq<u32>)
    ensures var m := CamJob(view, job, track, start, duration, color, primary, deps, name);
            && Header(m) == 0x0c && Image(m) == []
            && Sum(m) == 1 + 4 + 5 * 5 + 2 * 10 + 4 + |deps| * 5 + |name|
            && (|deps| < 0x8000_0000 ==>
                  Fields(m) ==
                  [Int(AsInt32(view)), Int(AsInt32(job)), Int(AsInt32(track)), Long(AsInt64(start)),
                    Long(AsInt64(duration)), Color(color), Int(AsInt32(primary)), Int(|deps|)]
                   + DepFields(deps) + [Rest(name)])
  {
    hide DepFields;
  }

  lemma CamJobSetDepsLayout(view: u32, job: u32, time: u64, primary: u32, deps: seq<u32>)
    ensures var m := CamJobSetDeps(view, job, time, primary, deps);
            && Header(m) == 0x0f && Image(m) == [] && Sum(m) == 1 + 4 + 4 * 5 + 10 + |deps| * 5
            && (|deps| < 0x8000_0000 ==>
                  Fields(m) ==
                  [Int(AsInt32(view)), Int(AsInt32(job)), Long(AsInt64(time)), Int(AsInt32(primary)), Int(|deps|)]
                   + DepFields(deps))
  {
    hide DepFields;
  }

  lemma MoreDeps(deps: seq<u32>, i: nat)
    requires i < |deps|
    ensures DepFields(deps[..i]) + [Int(AsInt32(deps[i]))] == DepFields(deps[..i + 1])
  {
  }

  lemma AllDeps(deps: seq<u32>)
    ensures DepFields(deps[..0]) == [] && deps[..|deps|] == deps
  {
  }

  lemma CounterLayout(m: Message)
    requires m.Counter?
    ensures Header(m) == 0x08 && Image(m) == []
    ensures Sum(m) == 1 + 4 + 12 * 5 + 4 + TextSizes(m.activities)
                           + |m.title| + 1 + |m.name| + 1 + |m.units| + 1 + |m.description|
    ensures |m.activities| < 0x8000_0000 ==>
              Fields(m) ==
                   ([Int(AsInt32(m.id)), Int(m.perCpu), Int(m.counterClass), Int(m.display), Int(AsInt32(m.modifier)),
                     Int(m.composition), Int(m.rendering), Int(m.averageSelection), Int(m.averageCores),
                     Int(m.percentage)] + [Int(|m.activities|), Int(AsInt32(m.cores)), Color(m.color)])
                   + ActivityFields(m.activities)
                   + [Text(m.title), Nul, Text(m.name), Nul, Text(m.units), Nul, Rest(m.description)]
  {
    hide ActivityFields;
    if |m.activities| < 0x8000_0000 {
      var settings, counts := CounterSettings(m), [Int(|m.activities|), Int(AsInt32(m.cores)), Color(m.color)];
      assert Head(m) == settings + counts;
    }
  }

  lemma MoreActivities(acts: seq<Activity>, i: nat)
    requires i < |acts|
    ensures ActivityFields(acts[..i]) + [Text(acts[i].name), Nul, Color(acts[i].color)] == ActivityFields(acts[..i + 1])
    ensures TextSizes(acts[..i]) + |acts[i].name| + 4 == TextSizes(acts[..i + 1])
  {
    assert acts[..i + 1][..i] == acts[..i];
  }

  lemma {:induction false} PartOfActivities(acts: seq<Activity>, i: nat)
    requires i <= |acts|
    ensures TextSizes(acts[..i]) <= TextSizes(acts)
    decreases |acts|
  {
    if i == |acts| {
      assert acts[..i] == acts;
    } else {
      var n := |acts| - 1;
      PartOfActivities(acts[..n], i);
      assert acts[..n][..i] == acts[..i];
    }
  }

  lemma AllActivities(acts: seq<Activity>)
    ensures ActivityFields(acts[..0]) == [] && TextSizes(acts[..0]) == 0 && acts[..|acts|] == acts
  {
  }
}
