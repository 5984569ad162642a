/**
 * The flattening body of `fct_read_json_nested` in `src/etl/extract.py`: the
 * parsed document is split into group rows, round rows, one match row per
 * match of every group and every knockout round (tagged with its stage and
 * container key), and one match-to-channel row per listed channel.
 */
module Extract {
  import opened Wrappers
  import Cells
  import Utils
  import Text

  /* ---------------------------------------------------------------------- */
  /* The parsed document                                                      */
  /* ---------------------------------------------------------------------- */

  /** A value as `json.load` returns it; an object keeps its keys in document order. */
  datatype Json =
    | JNull
    | JBool(b: bool)
    | JNum(n: int)
    | JStr(s: string)
    | JArr(items: seq<Json>)
    | JObj(fields: seq<Member>)

  datatype Member = Member(key: string, value: Json)

  /** `key in d` */
  predicate HasKey(fields: seq<Member>, key: string) {
    exists i :: 0 <= i < |fields| && fields[i].key == key
  }

  /** `d.get(key, default)`: the value of the first member with that key. */
  function Lookup(fields: seq<Member>, key: string, default: Json): Json {
    if fields == [] then default
    else if fields[0].key == key then fields[0].value
    else Lookup(fields[1..], key, default)
  }

  /** `get` falls back on the default exactly when the key is absent, and otherwise returns a value stored under it. */
  lemma {:induction false} LookupMeaning(fields: seq<Member>, key: string, default: Json)
    ensures !HasKey(fields, key) ==> Lookup(fields, key, default) == default
    ensures HasKey(fields, key) ==>
      exists i :: 0 <= i < |fields| && fields[i].key == key && Lookup(fields, key, default) == fields[i].value &&
        forall j :: 0 <= j < i ==> fields[j].key != key
  {
    if fields == [] {
    } else if fields[0].key == key {
      assert HasKey(fields, key);
    } else {
      LookupMeaning(fields[1..], key, default);
      if HasKey(fields[1..], key) {
        var i :| 0 <= i < |fields[1..]| && fields[1..][i].key == key && Lookup(fields[1..], key, default) == fields[1..][i].value
          && forall j :: 0 <= j < i ==> fields[1..][j].key != key;
        assert fields[i + 1].key == key;
        forall j | 0 <= j < i + 1
          ensures fields[j].key != key
        {
          if j > 0 {
            assert fields[j] == fields[1..][j - 1];
          }
        }
      }
      if HasKey(fields, key) {
        var i :| 0 <= i < |fields| && fields[i].key == key;
        assert i > 0 && fields[1..][i - 1].key == key;
      }
    }
  }

  /** `obj.get(key, default)` on an object. */
  function Field(obj: Json, key: string, default: Json): Json
    requires obj.JObj?
  {
    Lookup(obj.fields, key, default)
  }

  /**
   * What a `for` loop visits: the items of a list, the keys of an object,
   * the one-character strings of a string; None where Python raises TypeError.
   */
  function Iterate(j: Json): (r: Option<seq<Json>>)
    ensures r.Some? <==> j.JArr? || j.JObj? || j.JStr?
    ensures j.JArr? ==> r == Some(j.items)
  {
    match j
    case JArr(items) => Some(items)
    case JObj(fields) => Some(seq(|fields|, i requires 0 <= i < |fields| => JStr(fields[i].key)))
    case JStr(s) => Some(seq(|s|, i requires 0 <= i < |s| => JStr([s[i]])))
    case _ => None
  }

  /* ---------------------------------------------------------------------- */
  /* The flat relations                                                       */
  /* ---------------------------------------------------------------------- */

  /** A row of `groups`. */
  datatype GroupRow = GroupRow(groupId: string, groupName: Json, winnerTeamId: Json, runnerupTeamId: Json)

  /** A row of `rounds`. */
  datatype RoundRow = RoundRow(roundId: string, roundName: Json)

  /** A row of `matches`; `None` stands for the Python `None` the source writes. */
  datatype MatchRow = MatchRow(
    matchId: Json, kind: Json, stage: string, groupId: Option<string>, roundId: Option<string>,
    date: Json, stadiumId: Json, homeTeamId: Json, awayTeamId: Json,
    homeResult: Json, awayResult: Json, homePenalty: Json, awayPenalty: Json,
    winner: Json, finished: Json, matchday: Json, channels: Json)

  /** A row of `bridge_match_channels`. */
  datatype BridgeRow = BridgeRow(matchId: Json, channelId: Json)

  /** The returned dictionary of relations. */
  datatype Nested = Nested(
    teams: Json, stadiums: Json, tvchannels: Json,
    groups: seq<GroupRow>, rounds: seq<RoundRow>, matches: seq<MatchRow>, bridge: seq<BridgeRow>)

  /** The container a match was found in. */
  datatype Stage = Group(groupId: string) | Knockout(roundId: string)

  /* ---------------------------------------------------------------------- */
  /* Documents the traversal accepts                                          */
  /* ---------------------------------------------------------------------- */

  /** `match.get(...)` works and its `channels` can be looped over. */
  predicate MatchOk(m: Json) {
    m.JObj? && Iterate(Field(m, "channels", JArr([]))).Some?
  }

  /** The matches of a group or round, `container.get('matches', [])`, as visited. */
  function Matches(container: Json): Option<seq<Json>>
    requires container.JObj?
  {
    Iterate(Field(container, "matches", JArr([])))
  }

  /** A group or round whose matches can all be read. */
  predicate ContainerOk(c: Json) {
    c.JObj? && Matches(c).Some? && forall k :: 0 <= k < |Matches(c).value| ==> MatchOk(Matches(c).value[k])
  }

  /** `data.get(key, {})` can be iterated with `.items()`. */
  function Section(data: Json, key: string): Json
    requires data.JObj?
  {
    Field(data, key, JObj([]))
  }

  predicate SectionOk(s: Json) {
    s.JObj? && forall i :: 0 <= i < |s.fields| ==> ContainerOk(s.fields[i].value)
  }

  /** A document the traversal reads to the end without raising. */
  predicate WellShaped(data: Json) {
    data.JObj? && SectionOk(Section(data, "groups")) && SectionOk(Section(data, "knockout"))
  }

  /* ---------------------------------------------------------------------- */
  /* Specification of the relations                                           */
  /* ---------------------------------------------------------------------- */

  function GroupRowOf(m: Member): GroupRow
    requires m.value.JObj?
  {
    GroupRow(m.key, Field(m.value, "name", JNull), Field(m.value, "winner", JNull), Field(m.value, "runnerup", JNull))
  }

  /** One group row per key of `groups`, in document order. */
  function GroupRows(members: seq<Member>): (r: seq<GroupRow>)
    requires forall i :: 0 <= i < |members| ==> members[i].value.JObj?
    ensures |r| == |members| && forall i :: 0 <= i < |members| ==> r[i] == GroupRowOf(members[i])
  {
    seq(|members|, i requires 0 <= i < |members| => GroupRowOf(members[i]))
  }

  /** One round row per key of `knockout`, in document order. */
  function RoundRows(members: seq<Member>): (r: seq<RoundRow>)
    requires forall i :: 0 <= i < |members| ==> members[i].value.JObj?
    ensures |r| == |members|
    ensures forall i :: 0 <= i < |members| ==> r[i] == RoundRow(members[i].key, Field(members[i].value, "name", JNull))
  {
    seq(|members|, i requires 0 <= i < |members| => RoundRow(members[i].key, Field(members[i].value, "name", JNull)))
  }

  /** The row of one match found in the given container. */
  function MatchRowOf(m: Json, stage: Stage): MatchRow
    requires m.JObj?
  {
    MatchRow(
      Field(m, "name", JNull), Field(m, "type", JNull),
      if stage.Group? then "group" else "knockout",
      if stage.Group? then Some(stage.groupId) else None,
      if stage.Knockout? then Some(stage.roundId) else None,
      Field(m, "date", JNull), Field(m, "stadium", JNull),
      Field(m, "home_team", JNull), Field(m, "away_team", JNull),
      Field(m, "home_result", JNull), Field(m, "away_result", JNull),
      if stage.Group? then JNull else Field(m, "home_penalty", JNull),
      if stage.Group? then JNull else Field(m, "away_penalty", JNull),
      Field(m, "winner", JNull), Field(m, "finished", JNull), Field(m, "matchday", JNull),
      Field(m, "channels", JArr([])))
  }

  /** The channels a match lists. */
  function Channels(m: Json): seq<Json>
    requires MatchOk(m)
  {
    Iterate(Field(m, "channels", JArr([]))).value
  }

  /** One bridge row per channel of a match, in order. */
  function ChannelRows(matchId: Json, channels: seq<Json>): (r: seq<BridgeRow>)
    ensures |r| == |channels| && forall k :: 0 <= k < |channels| ==> r[k] == BridgeRow(matchId, channels[k])
  {
    seq(|channels|, k requires 0 <= k < |channels| => BridgeRow(matchId, channels[k]))
  }

  function ContainerMatches(ms: seq<Json>, stage: Stage): (r: seq<MatchRow>)
    requires forall k :: 0 <= k < |ms| ==> ms[k].JObj?
    ensures |r| == |ms| && forall k :: 0 <= k < |ms| ==> r[k] == MatchRowOf(ms[k], stage)
  {
    seq(|ms|, k requires 0 <= k < |ms| => MatchRowOf(ms[k], stage))
  }

  function ContainerBridge(ms: seq<Json>): seq<BridgeRow>
    requires forall k :: 0 <= k < |ms| ==> MatchOk(ms[k])
  {
    if ms == [] then []
    else
      var last := ms[|ms| - 1];
      assert MatchOk(last);
      ContainerBridge(ms[..|ms| - 1]) + ChannelRows(Field(last, "name", JNull), Channels(last))
  }

  function StageOf(key: string, knockout: bool): Stage {
    if knockout then Knockout(key) else Group(key)
  }

  /** The match rows of every container of a section, container after container. */
  function SectionMatches(members: seq<Member>, knockout: bool): seq<MatchRow>
    requires forall i :: 0 <= i < |members| ==> ContainerOk(members[i].value)
  {
    if members == [] then []
    else
      var last := members[|members| - 1];
      assert ContainerOk(last.value);
      SectionMatches(members[..|members| - 1], knockout) + ContainerMatches(Matches(last.value).value, StageOf(last.key, knockout))
  }

  function SectionBridge(members: seq<Member>): seq<BridgeRow>
    requires forall i :: 0 <= i < |members| ==> ContainerOk(members[i].value)
  {
    if members == [] then []
    else
      var last := members[|members| - 1];
      assert ContainerOk(last.value);
      SectionBridge(members[..|members| - 1]) + ContainerBridge(Matches(last.value).value)
  }

  /** The relations `fct_read_json_nested` returns for a document it reads without raising. */
  function FlattenSpec(data: Json): Nested
    requires WellShaped(data)
  {
    var groups := Section(data, "groups").fields;
    var knockout := Section(data, "knockout").fields;
    Nested(
      Field(data, "teams", JArr([])), Field(data, "stadiums", JArr([])), Field(data, "tvchannels", JArr([])),
      GroupRows(groups), RoundRows(knockout),
      SectionMatches(groups, false) + SectionMatches(knockout, true),
      SectionBridge(groups) + SectionBridge(knockout))
  }

  /* ---------------------------------------------------------------------- */
  /* The traversal                                                            */
  /* ---------------------------------------------------------------------- */

  /** The prefix equations the loops below step through. */
  lemma ContainerMatchesStep(ms: seq<Json>, k: nat, stage: Stage)
    requires k < |ms| && forall j :: 0 <= j <= k ==> ms[j].JObj?
    ensures ContainerMatches(ms[..k + 1], stage) == ContainerMatches(ms[..k], stage) + [MatchRowOf(ms[k], stage)]
  {
    assert ms[..k + 1][..k] == ms[..k];
  }

  lemma ContainerBridgeStep(ms: seq<Json>, k: nat)
    requires k < |ms| && forall j :: 0 <= j <= k ==> MatchOk(ms[j])
    ensures ContainerBridge(ms[..k + 1]) == ContainerBridge(ms[..k]) + ChannelRows(Field(ms[k], "name", JNull), Channels(ms[k]))
  {
    assert ms[..k + 1][..k] == ms[..k];
  }

  lemma SectionStep(members: seq<Member>, i: nat, knockout: bool)
    requires i < |members| && forall j :: 0 <= j <= i ==> ContainerOk(members[j].value)
    ensures SectionMatches(members[..i + 1], knockout)
         == SectionMatches(members[..i], knockout) + ContainerMatches(Matches(members[i].value).value, StageOf(members[i].key, knockout))
    ensures SectionBridge(members[..i + 1]) == SectionBridge(members[..i]) + ContainerBridge(Matches(members[i].value).value)
  {
    assert members[..i + 1][..i] == members[..i];
  }

  lemma RoundRowsStep(members: seq<Member>, i: nat)
    requires i < |members| && forall j :: 0 <= j <= i ==> members[j].value.JObj?
    ensures RoundRows(members[..i + 1]) == RoundRows(members[..i]) + [RoundRow(members[i].key, Field(members[i].value, "name", JNull))]
  {
    assert members[..i + 1][..i] == members[..i];
  }

  /** The innermost loop: one bridge row per channel. */
  method AppendChannels(bridge: seq<BridgeRow>, matchId: Json, channels: seq<Json>) returns (r: seq<BridgeRow>)
    ensures r == bridge + ChannelRows(matchId, channels)
  {
    r := bridge;
    for c := 0 to |channels|
      invariant r == bridge + ChannelRows(matchId, channels[..c])
    {
      r := r + [BridgeRow(matchId, channels[c])];
    }
    assert channels[..|channels|] == channels;
  }

  /** The loops over one group or round: its match rows, then each match's channel rows. */
  method ContainerRows(container: Json, stage: Stage) returns (r: Option<(seq<MatchRow>, seq<BridgeRow>)>)
    requires container.JObj?
    ensures r.Some? <==> ContainerOk(container)
    ensures r.Some? ==> r.value.0 == ContainerMatches(Matches(container).value, stage)
    ensures r.Some? ==> r.value.1 == ContainerBridge(Matches(container).value)
  {
    var ms := Matches(container);
    if ms.None? {
      return None;
    }
    var rows: seq<MatchRow> := [];
    var bridge: seq<BridgeRow> := [];
    for k := 0 to |ms.value|
      invariant forall j :: 0 <= j < k ==> MatchOk(ms.value[j])
      invariant rows == ContainerMatches(ms.value[..k], stage)
      invariant bridge == ContainerBridge(ms.value[..k])
    {
      var m := ms.value[k];
      if !m.JObj? {
        return None;
      }
      rows := rows + [MatchRowOf(m, stage)];
      var channels := Iterate(Field(m, "channels", JArr([])));
      if channels.None? {
        return None;
      }
      bridge := AppendChannels(bridge, Field(m, "name", JNull), channels.value);
      ContainerMatchesStep(ms.value, k, stage);
      ContainerBridgeStep(ms.value, k);
    }
    assert ms.value[..|ms.value|] == ms.value;
    return Some((rows, bridge));
  }

  /** The first loop over `groups`: one group row per key. */
  method ReadGroups(groups: seq<Member>) returns (r: Option<seq<GroupRow>>)
    ensures r.Some? <==> forall i :: 0 <= i < |groups| ==> groups[i].value.JObj?
    ensures r.Some? ==> r.value == GroupRows(groups)
  {
    var rows: seq<GroupRow> := [];
    for i := 0 to |groups|
      invariant forall j :: 0 <= j < i ==> groups[j].value.JObj?
      invariant rows == GroupRows(groups[..i])
    {
      var member := groups[i];
      if !member.value.JObj? {
        return None;
      }
      rows := rows + [GroupRowOf(member)];
    }
    assert groups[..|groups|] == groups;
    return Some(rows);
  }

  /** The second loop over `groups`: the rows of every group's matches. */
  method ReadGroupMatches(groups: seq<Member>) returns (r: Option<(seq<MatchRow>, seq<BridgeRow>)>)
    requires forall i :: 0 <= i < |groups| ==> groups[i].value.JObj?
    ensures r.Some? <==> forall i :: 0 <= i < |groups| ==> ContainerOk(groups[i].value)
    ensures r.Some? ==> r.value == (SectionMatches(groups, false), SectionBridge(groups))
  {
    var matches: seq<MatchRow> := [];
    var bridge: seq<BridgeRow> := [];
    for i := 0 to |groups|
      invariant forall j :: 0 <= j < i ==> ContainerOk(groups[j].value)
      invariant matches == SectionMatches(groups[..i], false)
      invariant bridge == SectionBridge(groups[..i])
    {
      var member := groups[i];
      var step := ContainerRows(member.value, Group(member.key));
      if step.None? {
        return None;
      }
      matches := matches + step.value.0;
      bridge := bridge + step.value.1;
      SectionStep(groups, i, false);
    }
    assert groups[..|groups|] == groups;
    return Some((matches, bridge));
  }

  /** The loop over `knockout`: a round row, then the rows of the round's matches. */
  method ReadKnockout(knockout: seq<Member>) returns (r: Option<(seq<RoundRow>, seq<MatchRow>, seq<BridgeRow>)>)
    ensures r.Some? <==> forall i :: 0 <= i < |knockout| ==> ContainerOk(knockout[i].value)
    ensures r.Some? ==> r.value == (RoundRows(knockout), SectionMatches(knockout, true), SectionBridge(knockout))
  {
    var rounds: seq<RoundRow> := [];
    var matches: seq<MatchRow> := [];
    var bridge: seq<BridgeRow> := [];
    for i := 0 to |knockout|
      invariant forall j :: 0 <= j < i ==> ContainerOk(knockout[j].value)
      invariant rounds == RoundRows(knockout[..i])
      invariant matches == SectionMatches(knockout[..i], true)
      invariant bridge == SectionBridge(knockout[..i])
    {
      var member := knockout[i];
      if !member.value.JObj? {
        return None;
      }
      rounds := rounds + [RoundRow(member.key, Field(member.value, "name", JNull))];
      var step := ContainerRows(member.value, Knockout(member.key));
      if step.None? {
        return None;
      }
      matches := matches + step.value.0;
      bridge := bridge + step.value.1;
      RoundRowsStep(knockout, i);
      SectionStep(knockout, i, true);
    }
    assert knockout[..|knockout|] == knockout;
    return Some((rounds, matches, bridge));
  }

  /** `fct_read_json_nested` once the document is loaded; None where Python raises. */
  method Flatten(data: Json) returns (r: Option<Nested>)
    ensures r.Some? <==> WellShaped(data)
    ensures r.Some? ==> r.value == FlattenSpec(data)
  {
    if !data.JObj? {
      return None;
    }
    var teams := Field(data, "teams", JArr([]));
    var stadiums := Field(data, "stadiums", JArr([]));
    var tvchannels := Field(data, "tvchannels", JArr([]));
    var groups := Section(data, "groups");
    if !groups.JObj? {
      return None;
    }
    var groupRows := ReadGroups(groups.fields);
    if groupRows.None? {
      return None;
    }
    var groupMatches := ReadGroupMatches(groups.fields);
    if groupMatches.None? {
      return None;
    }
    var knockout := Section(data, "knockout");
    if !knockout.JObj? {
      return None;
    }
    var knockoutRows := ReadKnockout(knockout.fields);
    if knockoutRows.None? {
      return None;
    }
    var (rounds, matches, bridge) := knockoutRows.value;
    r := Some(Nested(teams, stadiums, tvchannels, groupRows.value, rounds,
                     groupMatches.value.0 + matches, groupMatches.value.1 + bridge));
  }

  /* ---------------------------------------------------------------------- */
  /* Properties of the relations                                              */
  /* ---------------------------------------------------------------------- */

  /** A row written by the group pass for group `key`. */
  predicate GroupTagged(row: MatchRow, key: string) {
    row.stage == "group" && row.groupId == Some(key) && row.roundId == None &&
    row.homePenalty == JNull && row.awayPenalty == JNull
  }

  /** A row written by the knockout pass for round `key`. */
  predicate KnockoutTagged(row: MatchRow, key: string) {
    row.stage == "knockout" && row.groupId == None && row.roundId == Some(key)
  }

  predicate Tagged(row: MatchRow, stage: Stage) {
    match stage
    case Group(key) => GroupTagged(row, key)
    case Knockout(key) => KnockoutTagged(row, key)
  }

  /** A match row carries the match's own fields, its container's tag and, in a round, its penalties. */
  lemma MatchRowMeaning(m: Json, stage: Stage)
    requires m.JObj?
    ensures Tagged(MatchRowOf(m, stage), stage)
    ensures MatchRowOf(m, stage).matchId == Field(m, "name", JNull)
    ensures MatchRowOf(m, stage).channels == Field(m, "channels", JArr([]))
    ensures MatchRowOf(m, stage).homeTeamId == Field(m, "home_team", JNull)
    ensures MatchRowOf(m, stage).awayTeamId == Field(m, "away_team", JNull)
    ensures stage.Knockout? ==>
      MatchRowOf(m, stage).homePenalty == Field(m, "home_penalty", JNull) &&
      MatchRowOf(m, stage).awayPenalty == Field(m, "away_penalty", JNull)
  {
  }

  /** The number of matches listed under the containers of a section. */
  function MatchCount(members: seq<Member>): nat
    requires forall i :: 0 <= i < |members| ==> ContainerOk(members[i].value)
  {
    if members == [] then 0
    else
      var last := members[|members| - 1];
      assert ContainerOk(last.value);
      MatchCount(members[..|members| - 1]) + |Matches(last.value).value|
  }

  /** A section yields as many match rows as its containers list matches. */
  lemma {:induction false} SectionMatchesCount(members: seq<Member>, knockout: bool)
    requires forall i :: 0 <= i < |members| ==> ContainerOk(members[i].value)
    ensures |SectionMatches(members, knockout)| == MatchCount(members)
  {
    if members != [] {
      SectionMatchesCount(members[..|members| - 1], knockout);
    }
  }

  /**
   * Match `j` of container `i` is emitted, tagged with that container, right after
   * the matches of the containers before it.
   */
  lemma {:induction false} SectionMatchesAt(members: seq<Member>, knockout: bool, i: nat, j: nat)
    requires forall x :: 0 <= x < |members| ==> ContainerOk(members[x].value)
    requires i < |members| && ContainerOk(members[i].value) && j < |Matches(members[i].value).value|
    ensures MatchCount(members[..i]) + j < |SectionMatches(members, knockout)|
    ensures SectionMatches(members, knockout)[MatchCount(members[..i]) + j]
         == MatchRowOf(Matches(members[i].value).value[j], StageOf(members[i].key, knockout))
  {
    var n := |members|;
    var front := members[..n - 1];
    var last := members[n - 1];
    assert ContainerOk(last.value);
    SectionMatchesCount(front, knockout);
    if i == n - 1 {
      assert front == members[..i];
    } else {
      assert front[..i] == members[..i];
      SectionMatchesAt(front, knockout, i, j);
    }
  }

  /** The channel rows of a run of match rows, match after match. */
  function RowsBridge(rows: seq<MatchRow>): seq<BridgeRow>
    requires forall k :: 0 <= k < |rows| ==> Iterate(rows[k].channels).Some?
  {
    if rows == [] then []
    else
      var last := rows[|rows| - 1];
      assert Iterate(last.channels).Some?;
      RowsBridge(rows[..|rows| - 1]) + ChannelRows(last.matchId, Iterate(last.channels).value)
  }

  lemma {:induction false} RowsBridgeAppend(a: seq<MatchRow>, b: seq<MatchRow>)
    requires forall k :: 0 <= k < |a| ==> Iterate(a[k].channels).Some?
    requires forall k :: 0 <= k < |b| ==> Iterate(b[k].channels).Some?
    ensures forall k :: 0 <= k < |a + b| ==> Iterate((a + b)[k].channels).Some?
    ensures RowsBridge(a + b) == RowsBridge(a) + RowsBridge(b)
  {
    assert forall k :: 0 <= k < |a + b| ==> (a + b)[k] == if k < |a| then a[k] else b[k - |a|];
    if b == [] {
      assert a + b == a;
    } else {
      var n := |b|;
      var last := b[n - 1];
      assert (a + b)[..|a + b| - 1] == a + b[..n - 1];
      assert (a + b)[|a + b| - 1] == last;
      RowsBridgeAppend(a, b[..n - 1]);
      assert RowsBridge(b) == RowsBridge(b[..n - 1]) + ChannelRows(last.matchId, Iterate(last.channels).value);
    }
  }

  /** Within a container, the bridge lists each match row's channels in row order. */
  lemma {:induction false} ContainerBridgeFollows(ms: seq<Json>, stage: Stage)
    requires forall k :: 0 <= k < |ms| ==> MatchOk(ms[k])
    ensures forall k :: 0 <= k < |ms| ==> ms[k].JObj?
    ensures forall k :: 0 <= k < |ms| ==> Iterate(ContainerMatches(ms, stage)[k].channels).Some?
    ensures ContainerBridge(ms) == RowsBridge(ContainerMatches(ms, stage))
  {
    if ms != [] {
      var n := |ms|;
      assert ms[..n] == ms;
      ContainerMatchesStep(ms, n - 1, stage);
      ContainerBridgeFollows(ms[..n - 1], stage);
      var rows := ContainerMatches(ms, stage);
      assert rows[..n - 1] == ContainerMatches(ms[..n - 1], stage);
    }
  }

  /** Within a section, the bridge lists each match row's channels in row order. */
  lemma {:induction false} SectionBridgeFollows(members: seq<Member>, knockout: bool)
    requires forall i :: 0 <= i < |members| ==> ContainerOk(members[i].value)
    ensures forall k :: 0 <= k < |SectionMatches(members, knockout)| ==> Iterate(SectionMatches(members, knockout)[k].channels).Some?
    ensures SectionBridge(members) == RowsBridge(SectionMatches(members, knockout))
  {
    if members != [] {
      var n := |members|;
      var last := members[n - 1];
      assert ContainerOk(last.value);
      var ms := Matches(last.value).value;
      SectionBridgeFollows(members[..n - 1], knockout);
      ContainerBridgeFollows(ms, StageOf(last.key, knockout));
      RowsBridgeAppend(SectionMatches(members[..n - 1], knockout), ContainerMatches(ms, StageOf(last.key, knockout)));
    }
  }

  /** Absent top-level keys give empty relations and never make the traversal raise. */
  lemma AbsentKeys(data: Json)
    requires data.JObj?
    ensures !HasKey(data.fields, "teams") ==> Field(data, "teams", JArr([])) == JArr([])
    ensures !HasKey(data.fields, "stadiums") ==> Field(data, "stadiums", JArr([])) == JArr([])
    ensures !HasKey(data.fields, "tvchannels") ==> Field(data, "tvchannels", JArr([])) == JArr([])
    ensures !HasKey(data.fields, "groups") ==> Section(data, "groups") == JObj([])
    ensures !HasKey(data.fields, "knockout") ==> Section(data, "knockout") == JObj([])
    ensures !HasKey(data.fields, "groups") && !HasKey(data.fields, "knockout") ==> WellShaped(data)
  {
    LookupMeaning(data.fields, "teams", JArr([]));
    LookupMeaning(data.fields, "stadiums", JArr([]));
    LookupMeaning(data.fields, "tvchannels", JArr([]));
    LookupMeaning(data.fields, "groups", JObj([]));
    LookupMeaning(data.fields, "knockout", JObj([]));
  }

  /** A match without `channels` is read as listing none. */
  lemma NoChannelsKey(m: Json)
    requires m.JObj? && !HasKey(m.fields, "channels")
    ensures MatchOk(m) && Channels(m) == []
  {
    LookupMeaning(m.fields, "channels", JArr([]));
  }

  /** The stage tag feeds `fct_generate_unique_stage`: its select recovers the container key. */
  function OptCell(o: Option<string>): Cells.Cell {
    if o.Some? then Cells.Str(o.value) else Cells.Null
  }

  /** The two tags are already trimmed and lower case. */
  lemma StageWords()
    ensures Text.Strip(Text.Lower("group")) == "group"
    ensures Text.Strip(Text.Lower("knockout")) == "knockout"
  {
    assert Text.Lower("group") == "group";
    Text.StripNoOp("group");
    assert Text.Lower("knockout") == "knockout";
    Text.StripNoOp("knockout");
  }

  lemma StageNameOfRow(m: Json, stage: Stage)
    requires m.JObj?
    ensures var row := MatchRowOf(m, stage);
      Utils.StageName(Cells.Str(row.stage), OptCell(row.groupId), OptCell(row.roundId))
      == Cells.Str(if stage.Group? then stage.groupId else stage.roundId)
  {
    StageWords();
  }

  /* ---------------------------------------------------------------------- */
  /* The whole document                                                       */
  /* ---------------------------------------------------------------------- */

  /** One group row per key of `groups` and one round row per key of `knockout`, in document order. */
  lemma FlattenContainers(data: Json)
    requires WellShaped(data)
    ensures var groups, knockout, r := Section(data, "groups").fields, Section(data, "knockout").fields, FlattenSpec(data);
      |r.groups| == |groups| && |r.rounds| == |knockout| &&
      (forall i :: 0 <= i < |groups| ==>
        r.groups[i].groupId == groups[i].key &&
        r.groups[i].groupName == Field(groups[i].value, "name", JNull) &&
        r.groups[i].winnerTeamId == Field(groups[i].value, "winner", JNull) &&
        r.groups[i].runnerupTeamId == Field(groups[i].value, "runnerup", JNull)) &&
      (forall i :: 0 <= i < |knockout| ==>
        r.rounds[i].roundId == knockout[i].key && r.rounds[i].roundName == Field(knockout[i].value, "name", JNull))
  {
  }

  /** The match relation has as many rows as the document lists matches. */
  lemma FlattenMatchCount(data: Json)
    requires WellShaped(data)
    ensures |FlattenSpec(data).matches| == MatchCount(Section(data, "groups").fields) + MatchCount(Section(data, "knockout").fields)
  {
    SectionMatchesCount(Section(data, "groups").fields, false);
    SectionMatchesCount(Section(data, "knockout").fields, true);
  }

  /** Match `j` of group `i` is emitted, tagged with that group, before every knockout match. */
  lemma FlattenGroupMatch(data: Json, i: nat, j: nat)
    requires WellShaped(data)
    requires var groups := Section(data, "groups").fields;
      i < |groups| && ContainerOk(groups[i].value) && j < |Matches(groups[i].value).value|
    ensures var groups, r := Section(data, "groups").fields, FlattenSpec(data);
      var at := MatchCount(groups[..i]) + j;
      at < MatchCount(groups) && at < |r.matches| &&
      r.matches[at] == MatchRowOf(Matches(groups[i].value).value[j], Group(groups[i].key)) &&
      GroupTagged(r.matches[at], groups[i].key)
  {
    var groups := Section(data, "groups").fields;
    SectionMatchesCount(groups, false);
    SectionMatchesAt(groups, false, i, j);
    MatchRowMeaning(Matches(groups[i].value).value[j], Group(groups[i].key));
  }

  /** Match `j` of round `i` is emitted, tagged with that round, after every group match. */
  lemma FlattenKnockoutMatch(data: Json, i: nat, j: nat)
    requires WellShaped(data)
    requires var rounds := Section(data, "knockout").fields;
      i < |rounds| && ContainerOk(rounds[i].value) && j < |Matches(rounds[i].value).value|
    ensures var groups, rounds, r := Section(data, "groups").fields, Section(data, "knockout").fields, FlattenSpec(data);
      var at := MatchCount(groups) + MatchCount(rounds[..i]) + j;
      at < |r.matches| &&
      r.matches[at] == MatchRowOf(Matches(rounds[i].value).value[j], Knockout(rounds[i].key)) &&
      KnockoutTagged(r.matches[at], rounds[i].key)
  {
    var groups, rounds := Section(data, "groups").fields, Section(data, "knockout").fields;
    SectionMatchesCount(groups, false);
    SectionMatchesAt(rounds, true, i, j);
    MatchRowMeaning(Matches(rounds[i].value).value[j], Knockout(rounds[i].key));
  }

  /** The bridge has one row per channel of each match row, in match order. */
  lemma FlattenBridgeFollows(data: Json)
    requires WellShaped(data)
    ensures forall k :: 0 <= k < |FlattenSpec(data).matches| ==> Iterate(FlattenSpec(data).matches[k].channels).Some?
    ensures FlattenSpec(data).bridge == RowsBridge(FlattenSpec(data).matches)
  {
    var groups, rounds := Section(data, "groups").fields, Section(data, "knockout").fields;
    SectionBridgeFollows(groups, false);
    SectionBridgeFollows(rounds, true);
    RowsBridgeAppend(SectionMatches(groups, false), SectionMatches(rounds, true));
  }

  /** An empty document reads as empty relations. */
  lemma EmptyDocument()
    ensures WellShaped(JObj([]))
    ensures FlattenSpec(JObj([])) == Nested(JArr([]), JArr([]), JArr([]), [], [], [], [])
  {
  }
}
