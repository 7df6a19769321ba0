/** Room keys: how they are built and how an organization-wide broadcast recognises them. */
module Rooms {
  import opened Options
  import opened Text

  const DEFAULT_CHANNEL := "events"

  predicate IsHex(c: char) { '0' <= c <= '9' || 'a' <= c <= 'f' }

  /** The canonical text of a UUID: 36 characters, hex digits and four hyphens. */
  predicate IsUuid(s: string) {
    |s| == 36 && forall i :: 0 <= i < 36 ==> if i in {8, 13, 18, 23} then s[i] == '-' else IsHex(s[i])
  }

  type Uuid = s: string | IsUuid(s) witness "00000000-0000-0000-0000-000000000000"

  type RoomKey = string

  predicate IsChannelChar(c: char) {
    'a' <= c <= 'z' || 'A' <= c <= 'Z' || '0' <= c <= '9' || c == '_' || c == '-'
  }

  predicate ValidChannel(name: string) {
    1 <= |name| <= 64 && forall i :: 0 <= i < |name| ==> IsChannelChar(name[i])
  }

  function NormalChannel(channel: string): string {
    var name := TrimSpace(channel);
    if name == "" then DEFAULT_CHANNEL else name
  }

  function FormatKey(org: Uuid, app: Uuid, name: string): RoomKey {
    "org:" + org + ":app:" + app + ":channel:" + name
  }

  function BuildRoomKey(org: Uuid, app: Uuid, channel: string): Option<RoomKey> {
    var name := NormalChannel(channel);
    if ValidChannel(name) then Some(FormatKey(org, app, name)) else None
  }

  /** A valid name is taken as it is, and nothing but space means the default channel. */
  lemma ChannelNames(channel: string)
    ensures ValidChannel(channel) ==> NormalChannel(channel) == channel
    ensures TrimSpace(channel) == "" ==> NormalChannel(channel) == "events"
    ensures TrimSpace(channel) != "" ==> NormalChannel(channel) == TrimSpace(channel)
  {
    if ValidChannel(channel) { NothingToTrim(channel); }
  }

  lemma ValidRoom(org: Uuid, app: Uuid, name: string)
    requires ValidChannel(name)
    ensures BuildRoomKey(org, app, name) == Some(FormatKey(org, app, name))
  {
    ChannelNames(name);
  }

  lemma EventsIsValid()
    ensures ValidChannel("events")
  {
  }

  /** The test BroadcastToOrganization applies to every room key it iterates over. */
  predicate MatchesOrgChannel(key: RoomKey, org: Uuid, channel: string) {
    var prefix := "org:" + org + ":app:";
    var suffix := ":channel:" + channel;
    |key| > |prefix| + |suffix| && HasPrefix(key, prefix) && HasSuffix(key, suffix)
  }

  /** Where each field sits inside a key. */
  lemma KeyLayout(org: Uuid, app: Uuid, name: string)
    ensures var k := FormatKey(org, app, name);
            && |k| == 90 + |name|
            && k[..4] == "org:" && k[4..40] == org && k[40..45] == ":app:"
            && k[45..81] == app && k[81..90] == ":channel:" && k[90..] == name
  {
  }

  lemma PrefixIsOrg(org: Uuid, app: Uuid, name: string, other: Uuid)
    ensures HasPrefix(FormatKey(org, app, name), "org:" + other + ":app:") <==> org == other
  {
    KeyLayout(org, app, name);
    var k, p := FormatKey(org, app, name), "org:" + other + ":app:";
    assert p[4..40] == other;
    assert k[..45] == "org:" + org + ":app:";
    if k[..45] == p {
      assert k[..45][4..40] == org;
    }
  }

  /** Past the organization field a key holds exactly two colons: those of ":channel:". */
  lemma ColonPositions(org: Uuid, app: Uuid, name: string, i: nat)
    requires ValidChannel(name) && 45 <= i < 90 + |name|
    ensures |FormatKey(org, app, name)| == 90 + |name|
    ensures FormatKey(org, app, name)[i] == ':' <==> i == 81 || i == 89
  {
  }

  /** A ":channel:" that starts after the organization field can only be the real one. */
  lemma ChannelMarkPosition(org: Uuid, app: Uuid, name: string, p: nat)
    requires ValidChannel(name) && 45 <= p && OccursAt(FormatKey(org, app, name), ":channel:", p)
    ensures p == 81
  {
    KeyLayout(org, app, name);
    var k := FormatKey(org, app, name);
    assert k[p] == k[p..p + 9][0] == ':' && k[p + 8] == k[p..p + 9][8] == ':';
    ColonPositions(org, app, name, p);
    ColonPositions(org, app, name, p + 8);
  }

  lemma SuffixIsChannel(org: Uuid, app: Uuid, name: string, channel: string)
    requires ValidChannel(name)
    requires 45 + 9 + |channel| < |FormatKey(org, app, name)|
    ensures HasSuffix(FormatKey(org, app, name), ":channel:" + channel) <==> channel == name
  {
    KeyLayout(org, app, name);
    var k, suffix := FormatKey(org, app, name), ":channel:" + channel;
    var p := |k| - |suffix|;
    assert suffix[..9] == ":channel:" && suffix[9..] == channel;
    if HasSuffix(k, suffix) {
      assert k[p..][..9] == k[p..p + 9];
      ChannelMarkPosition(org, app, name, p);
      assert k[81..][9..] == k[90..];
    }
    if channel == name {
      assert k[81..] == suffix;
    }
  }

  /** The broadcast's prefix-and-suffix test is equality of the organization and channel fields, for
      every key a client can be in and for every channel text a caller may pass. */
  lemma MatchIsFieldEquality(org: Uuid, app: Uuid, name: string, target: Uuid, channel: string)
    requires ValidChannel(name)
    ensures MatchesOrgChannel(FormatKey(org, app, name), target, channel) <==> org == target && name == channel
  {
    KeyLayout(org, app, name);
    PrefixIsOrg(org, app, name, target);
    if 45 + 9 + |channel| < |FormatKey(org, app, name)| {
      SuffixIsChannel(org, app, name, channel);
    }
  }

  /** Two rooms are the same room only if organization, app and channel all agree. */
  lemma KeyInjective(org: Uuid, app: Uuid, name: string, org': Uuid, app': Uuid, name': string)
    requires FormatKey(org, app, name) == FormatKey(org', app', name')
    ensures org == org' && app == app' && name == name'
  {
    KeyLayout(org, app, name);
    KeyLayout(org', app', name');
  }
}
