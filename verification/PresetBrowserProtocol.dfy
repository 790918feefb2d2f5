/** The preset browser's wire format: requests from the editor, snapshots back to it. */
module PresetBrowserProtocol {
  import opened Wrappers
  import opened Bytes

  const MAX_REQUEST_BYTES := 4096
  const MAX_SNAPSHOT_BYTES := 65535
  const MAX_STRING_BYTES := 1024
  const MAX_ENTRIES := 256
  const MAX_TAGS_PER_ENTRY := 32
  const HEADER_BYTES := 12
  const ENTRY_HEADER_BYTES := 6

  type Text = seq<Byte>

  datatype ContentKind = NoContent | InitPreset | Factory | User

  datatype Command = Snapshot | Load | Next | Previous | Init | SaveAs | Delete | Refresh

  datatype ProtocolError = InvalidMessage | UnsupportedVersion | UnsupportedCommand | InvalidShape | LimitExceeded

  datatype Result<T> = Ok(value: T) | Err(error: ProtocolError)

  datatype Request = Request(command: Command, kind: ContentKind, identity: Text, name: Text, overwrite: bool)

  datatype Current = Current(kind: ContentKind, identity: Text, name: Text, dirty: bool)

  datatype PresetEntry = PresetEntry(kind: ContentKind, identity: Text, name: Text, tags: seq<Text>)

  datatype Browser = Browser(current: Current, userMutations: bool, entries: seq<PresetEntry>)

  // ---- Enumerations on the wire ---------------------------------------------------------------------

  function KindByte(k: ContentKind): Byte {
    match k case NoContent => 0 case InitPreset => 1 case Factory => 2 case User => 3
  }

  function KindOf(b: Byte): Option<ContentKind> {
    if b == 0 then Some(NoContent)
    else if b == 1 then Some(InitPreset)
    else if b == 2 then Some(Factory)
    else if b == 3 then Some(User)
    else None
  }

  function CommandByte(c: Command): Byte {
    match c
    case Snapshot => 1
    case Load => 2
    case Next => 3
    case Previous => 4
    case Init => 5
    case SaveAs => 6
    case Delete => 7
    case Refresh => 8
  }

  function CommandOf(b: Byte): Option<Command> {
    if b == 1 then Some(Snapshot)
    else if b == 2 then Some(Load)
    else if b == 3 then Some(Next)
    else if b == 4 then Some(Previous)
    else if b == 5 then Some(Init)
    else if b == 6 then Some(SaveAs)
    else if b == 7 then Some(Delete)
    else if b == 8 then Some(Refresh)
    else None
  }

  predicate Bounded(text: Text) {
    |text| <= MAX_STRING_BYTES
  }

  // ---- Requests ---------------------------------------------------------------------------------------

  predicate ValidRequestShape(r: Request) {
    match r.command
    case Load =>
      (r.kind == Factory || r.kind == User) && r.identity != [] && r.name == [] && !r.overwrite
    case SaveAs => r.kind == User && r.identity != [] && r.name != []
    case Delete => r.kind == User && r.identity != [] && r.name == [] && !r.overwrite
    case _ => r.kind == NoContent && r.identity == [] && r.name == [] && !r.overwrite
  }

  function RequestHeader(r: Request): (h: seq<Byte>)
    ensures |h| == HEADER_BYTES
  {
    ['W' as int, 'V' as int, 'P' as int, '2' as int, CommandByte(r.command), KindByte(r.kind),
     if r.overwrite then 1 else 0, 0]
    + U16(|r.identity|) + U16(|r.name|)
  }

  /** Nothing at all when a string is too long. */
  function EncodeRequest(r: Request): seq<Byte> {
    if !Bounded(r.identity) || !Bounded(r.name) then []
    else RequestHeader(r) + r.identity + r.name
  }

  function DecodeRequest(b: seq<Byte>): Result<Request> {
    if |b| < HEADER_BYTES || |b| > MAX_REQUEST_BYTES then
      Err(if |b| > MAX_REQUEST_BYTES then LimitExceeded else InvalidMessage)
    else if b[0] != 'W' as int || b[1] != 'V' as int || b[2] != 'P' as int then Err(InvalidMessage)
    else if b[3] != '2' as int then Err(UnsupportedVersion)
    else if CommandOf(b[4]).None? then Err(UnsupportedCommand)
    else if KindOf(b[5]).None? || b[6] / 2 != 0 || b[7] != 0 then Err(InvalidShape)
    else
      var identityLength, nameLength := LoadU16(b[8], b[9]), LoadU16(b[10], b[11]);
      if identityLength > MAX_STRING_BYTES || nameLength > MAX_STRING_BYTES
         || identityLength > |b| - HEADER_BYTES || nameLength > |b| - HEADER_BYTES - identityLength
         || HEADER_BYTES + identityLength + nameLength != |b|
      then Err(InvalidMessage)
      else
        var r := Request(CommandOf(b[4]).value, KindOf(b[5]).value, b[12..12 + identityLength],
                         b[12 + identityLength..], b[6] % 2 != 0);
        if ValidRequestShape(r) then Ok(r) else Err(InvalidShape)
  }

  lemma HeaderReads(r: Request)
    requires Bounded(r.identity) && Bounded(r.name)
    ensures
      var h := RequestHeader(r);
      && h[0] == 'W' as int && h[1] == 'V' as int && h[2] == 'P' as int && h[3] == '2' as int
      && CommandOf(h[4]) == Some(r.command) && KindOf(h[5]) == Some(r.kind)
      && h[6] / 2 == 0 && (h[6] % 2 != 0 <==> r.overwrite) && h[7] == 0
      && LoadU16(h[8], h[9]) == |r.identity| && LoadU16(h[10], h[11]) == |r.name|
  {
    LoadStored(|r.identity|);
    LoadStored(|r.name|);
  }

  /** A request comes through the wire unchanged if and only if its shape is valid; otherwise its shape
      is what it is refused for. */
  lemma RequestsRoundTripIff(r: Request)
    requires Bounded(r.identity) && Bounded(r.name)
    ensures ValidRequestShape(r) ==> DecodeRequest(EncodeRequest(r)) == Ok(r)
    ensures !ValidRequestShape(r) ==> DecodeRequest(EncodeRequest(r)) == Err(InvalidShape)
  {
    var b, h := EncodeRequest(r), RequestHeader(r);
    HeaderReads(r);
    assert forall i :: 0 <= i < HEADER_BYTES ==> b[i] == h[i];
    hide RequestHeader, LoadU16, CommandOf, KindOf, ValidRequestShape;
    assert b[12..12 + |r.identity|] == r.identity;
    assert b[12 + |r.identity|..] == r.name;
  }

  /** Every accepted request is the one encoding of what it decodes to. */
  lemma AcceptedRequestsReencode(b: seq<Byte>)
    requires DecodeRequest(b).Ok?
    ensures EncodeRequest(DecodeRequest(b).value) == b
  {
    hide ValidRequestShape;
    var r := DecodeRequest(b).value;
    StoreLoaded(b[8], b[9]);
    StoreLoaded(b[10], b[11]);
    assert b[..12] == [b[0], b[1], b[2], b[3], b[4], b[5], b[6], b[7]] + [b[8], b[9]] + [b[10], b[11]];
    assert b == b[..12] + r.identity + r.name;
  }

  // ---- Snapshots: encoding -------------------------------------------------------------------------------

  function EncodeTags(tags: seq<Text>): seq<Byte> {
    if tags == [] then []
    else EncodeTags(tags[..|tags| - 1]) + U16(|tags[|tags| - 1]|) + tags[|tags| - 1]
  }

  function EncodeEntry(e: PresetEntry): seq<Byte>
    requires EncodableEntry(e)
  {
    [KindByte(e.kind), |e.tags|] + U16(|e.identity|) + U16(|e.name|) + e.identity + e.name + EncodeTags(e.tags)
  }

  predicate EncodableEntry(e: PresetEntry) {
    && (e.kind == Factory || e.kind == User) && e.identity != [] && e.name != []
    && Bounded(e.identity) && Bounded(e.name)
    && |e.tags| <= MAX_TAGS_PER_ENTRY && forall i :: 0 <= i < |e.tags| ==> Bounded(e.tags[i])
  }

  predicate EncodableEntries(entries: seq<PresetEntry>) {
    forall i :: 0 <= i < |entries| ==> EncodableEntry(entries[i])
  }

  function EncodeEntries(entries: seq<PresetEntry>): seq<Byte>
    requires EncodableEntries(entries)
  {
    if entries == [] then []
    else EncodeEntries(entries[..|entries| - 1]) + EncodeEntry(entries[|entries| - 1])
  }

  function Flags(v: Browser): Byte {
    (if v.current.dirty then 1 else 0) + (if v.userMutations then 2 else 0)
  }

  function SnapshotHeader(v: Browser): (h: seq<Byte>)
    requires |v.entries| <= MAX_ENTRIES
    ensures |h| == HEADER_BYTES + |v.current.identity| + |v.current.name|
  {
    ['W' as int, 'V' as int, 'B' as int, '2' as int, KindByte(v.current.kind), Flags(v)]
    + U16(|v.entries|) + U16(|v.current.identity|) + U16(|v.current.name|) + v.current.identity + v.current.name
  }

  /** What the limits allow to be sent. */
  predicate Encodable(v: Browser) {
    && |v.entries| <= MAX_ENTRIES && Bounded(v.current.identity) && Bounded(v.current.name)
    && EncodableEntries(v.entries)
    && |SnapshotHeader(v) + EncodeEntries(v.entries)| <= MAX_SNAPSHOT_BYTES
  }

  function EncodeSnapshot(v: Browser): Result<seq<Byte>> {
    if Encodable(v) then Ok(SnapshotHeader(v) + EncodeEntries(v.entries)) else Err(LimitExceeded)
  }

  /** Appends one entry, or tells that it cannot be sent. */
  method AppendEntry(bytes: seq<Byte>, e: PresetEntry) returns (ok: bool, r: seq<Byte>)
    ensures ok == (EncodableEntry(e) && |bytes + EncodeEntry(e)| <= MAX_SNAPSHOT_BYTES)
    ensures ok ==> r == bytes + EncodeEntry(e)
  {
    if (e.kind != Factory && e.kind != User) || |e.identity| == 0 || |e.name| == 0
       || !Bounded(e.identity) || !Bounded(e.name) || |e.tags| > MAX_TAGS_PER_ENTRY {
      return false, bytes;
    }
    r := bytes + [KindByte(e.kind), |e.tags|];
    r := r + U16(|e.identity|) + U16(|e.name|) + e.identity + e.name;
    ghost var head := r;
    assert head == bytes + ([KindByte(e.kind), |e.tags|] + U16(|e.identity|) + U16(|e.name|) + e.identity + e.name);
    var i := 0;
    while i < |e.tags|
      invariant 0 <= i <= |e.tags| && r == head + EncodeTags(e.tags[..i])
      invariant forall j :: 0 <= j < i ==> Bounded(e.tags[j])
    {
      if !Bounded(e.tags[i]) {
        return false, r;
      }
      assert e.tags[..i + 1][..i] == e.tags[..i];
      r := r + U16(|e.tags[i]|) + e.tags[i];
      assert r == head + (EncodeTags(e.tags[..i]) + U16(|e.tags[i]|) + e.tags[i]);
      i := i + 1;
    }
    assert e.tags[..|e.tags|] == e.tags;
    assert r == bytes + EncodeEntry(e);
    ok := |r| <= MAX_SNAPSHOT_BYTES;
  }

  method EncodePresetBrowserSnapshot(v: Browser) returns (r: Result<seq<Byte>>)
    ensures r == EncodeSnapshot(v)
  {
    hide EncodeEntry;
    if |v.entries| > MAX_ENTRIES || !Bounded(v.current.identity) || !Bounded(v.current.name) {
      return Err(LimitExceeded);
    }
    var bytes := SnapshotHeader(v);
    assert bytes + [] == bytes;
    var i := 0;
    while i < |v.entries|
      invariant 0 <= i <= |v.entries| && EncodableEntries(v.entries[..i])
      invariant bytes == SnapshotHeader(v) + EncodeEntries(v.entries[..i])
    {
      assert v.entries[..i + 1][..i] == v.entries[..i];
      var ok, longer := AppendEntry(bytes, v.entries[i]);
      if !ok {
        if EncodableEntries(v.entries) {
          PrefixIsShorter(v.entries, i + 1);
        }
        return Err(LimitExceeded);
      }
      assert longer == SnapshotHeader(v) + (EncodeEntries(v.entries[..i]) + EncodeEntry(v.entries[i]));
      bytes := longer;
      i := i + 1;
    }
    assert v.entries[..|v.entries|] == v.entries;
    if |bytes| > MAX_SNAPSHOT_BYTES {
      return Err(LimitExceeded);
    }
    return Ok(bytes);
  }

  lemma {:induction false} PrefixIsShorter(entries: seq<PresetEntry>, n: nat)
    requires n <= |entries| && EncodableEntries(entries)
    ensures EncodableEntries(entries[..n]) && |EncodeEntries(entries[..n])| <= |EncodeEntries(entries)|
    decreases |entries|
  {
    if n == |entries| {
      assert entries[..n] == entries;
    } else {
      var shorter := entries[..|entries| - 1];
      PrefixIsShorter(shorter, n);
      assert shorter[..n] == entries[..n];
    }
  }

  // ---- Snapshots: decoding -----------------------------------------------------------------------------

  function ReadString(b: seq<Byte>, at: nat, length: nat): (r: Option<Text>)
    ensures r.Some? ==> at + length <= |b| && |r.value| == length <= MAX_STRING_BYTES
  {
    if length > MAX_STRING_BYTES || at > |b| || length > |b| - at then None else Some(b[at..at + length])
  }

  /** What was read and the offset behind it. */
  datatype Read<T> = Got(value: T, at: nat) | Refused(error: ProtocolError)

  function DecodeTag(b: seq<Byte>, at: nat): Read<Text> {
    if at > |b| || 2 > |b| - at then Refused(InvalidMessage)
    else
      var length := LoadU16(b[at], b[at + 1]);
      match ReadString(b, at + 2, length)
      case None => Refused(InvalidMessage)
      case Some(tag) => Got(tag, at + 2 + length)
  }

  function DecodeTags(b: seq<Byte>, start: nat, n: nat): (r: Read<seq<Text>>)
    ensures r.Got? ==> |r.value| == n
  {
    if n == 0 then Got([], start)
    else
      var before := DecodeTags(b, start, n - 1);
      if before.Refused? then before
      else
        var tag := DecodeTag(b, before.at);
        if tag.Refused? then Refused(tag.error) else Got(before.value + [tag.value], tag.at)
  }

  function DecodeEntry(b: seq<Byte>, at: nat): Read<PresetEntry> {
    if at > |b| || ENTRY_HEADER_BYTES > |b| - at then Refused(InvalidMessage)
    else
      var kind, tagCount := KindOf(b[at]), b[at + 1] as nat;
      var identityLength, nameLength := LoadU16(b[at + 2], b[at + 3]), LoadU16(b[at + 4], b[at + 5]);
      if (kind != Some(Factory) && kind != Some(User)) || tagCount > MAX_TAGS_PER_ENTRY
      then Refused(InvalidShape)
      else
        var identity := ReadString(b, at + 6, identityLength);
        if identity.None? then Refused(InvalidMessage)
        else
          var name := ReadString(b, at + 6 + identityLength, nameLength);
          if name.None? || identity.value == [] || name.value == [] then Refused(InvalidMessage)
          else
            var tags := DecodeTags(b, at + 6 + identityLength + nameLength, tagCount);
            if tags.Refused? then Refused(tags.error)
            else Got(PresetEntry(kind.value, identity.value, name.value, tags.value), tags.at)
  }

  function DecodeEntries(b: seq<Byte>, start: nat, n: nat): (r: Read<seq<PresetEntry>>)
    ensures r.Got? ==> |r.value| == n
  {
    if n == 0 then Got([], start)
    else
      var before := DecodeEntries(b, start, n - 1);
      if before.Refused? then before
      else
        var entry := DecodeEntry(b, before.at);
        if entry.Refused? then Refused(entry.error) else Got(before.value + [entry.value], entry.at)
  }

  function DecodeCurrent(b: seq<Byte>): Read<Current>
    requires HEADER_BYTES <= |b| && KindOf(b[4]).Some?
  {
    var identityLength, nameLength := LoadU16(b[8], b[9]), LoadU16(b[10], b[11]);
    var identity := ReadString(b, 12, identityLength);
    if identity.None? then Refused(InvalidMessage)
    else
      var name := ReadString(b, 12 + identityLength, nameLength);
      if name.None? then Refused(InvalidMessage)
      else Got(Current(KindOf(b[4]).value, identity.value, name.value, b[5] % 2 != 0), 12 + identityLength + nameLength)
  }

  function DecodeSnapshot(b: seq<Byte>): Result<Browser> {
    if |b| < HEADER_BYTES || |b| > MAX_SNAPSHOT_BYTES then Err(InvalidMessage)
    else if b[0] != 'W' as int || b[1] != 'V' as int || b[2] != 'B' as int then Err(InvalidMessage)
    else if b[3] != '2' as int then Err(UnsupportedVersion)
    else if KindOf(b[4]).None? || b[5] / 4 != 0 then Err(InvalidShape)
    else
      var entryCount := LoadU16(b[6], b[7]);
      if entryCount > MAX_ENTRIES then Err(LimitExceeded)
      else
        var current := DecodeCurrent(b);
        if current.Refused? then Err(current.error)
        else
          var entries := DecodeEntries(b, current.at, entryCount);
          if entries.Refused? then Err(entries.error)
          else if entries.at != |b| then Err(InvalidMessage)
          else Ok(Browser(current.value, b[5] / 2 % 2 != 0, entries.value))
  }

  method ReadEntry(b: seq<Byte>, start: nat) returns (r: Read<PresetEntry>)
    ensures r == DecodeEntry(b, start)
  {
    hide DecodeTags;
    if start > |b| || ENTRY_HEADER_BYTES > |b| - start {
      return Refused(InvalidMessage);
    }
    var at := start;
    var kind, tagCount := KindOf(b[at]), b[at + 1];
    var identityLength, nameLength := LoadU16(b[at + 2], b[at + 3]), LoadU16(b[at + 4], b[at + 5]);
    at := at + ENTRY_HEADER_BYTES;
    if kind.None? || (kind.value != Factory && kind.value != User) || tagCount > MAX_TAGS_PER_ENTRY {
      return Refused(InvalidShape);
    }
    var identity := ReadString(b, at, identityLength);
    if identity.None? {
      return Refused(InvalidMessage);
    }
    at := at + identityLength;
    var name := ReadString(b, at, nameLength);
    if name.None? || |identity.value| == 0 || |name.value| == 0 {
      return Refused(InvalidMessage);
    }
    at := at + nameLength;
    var tags := ReadTags(b, at, tagCount);
    if tags.Refused? {
      return Refused(tags.error);
    }
    return Got(PresetEntry(kind.value, identity.value, name.value, tags.value), tags.at);
  }

  method ReadTags(b: seq<Byte>, start: nat, tagCount: nat) returns (r: Read<seq<Text>>)
    ensures r == DecodeTags(b, start, tagCount)
  {
    var at := start;
    var tags: seq<Text> := [];
    var i := 0;
    while i < tagCount
      invariant 0 <= i <= tagCount && 0 <= at && DecodeTags(b, start, i) == Got(tags, at)
    {
      if at > |b| || 2 > |b| - at {
        TagsStayRefused(b, start, i + 1, tagCount);
        return Refused(InvalidMessage);
      }
      var tagLength := LoadU16(b[at], b[at + 1]);
      var tag := ReadString(b, at + 2, tagLength);
      if tag.None? {
        TagsStayRefused(b, start, i + 1, tagCount);
        return Refused(InvalidMessage);
      }
      at := at + 2 + tagLength;
      tags := tags + [tag.value];
      i := i + 1;
    }
    return Got(tags, at);
  }

  lemma {:induction false} TagsStayRefused(b: seq<Byte>, start: nat, i: nat, n: nat)
    requires i <= n && DecodeTags(b, start, i).Refused?
    ensures DecodeTags(b, start, n) == DecodeTags(b, start, i)
  {
    if i < n {
      TagsStayRefused(b, start, i, n - 1);
    }
  }

  lemma {:induction false} EntriesStayRefused(b: seq<Byte>, start: nat, i: nat, n: nat)
    requires i <= n && DecodeEntries(b, start, i).Refused?
    ensures DecodeEntries(b, start, n) == DecodeEntries(b, start, i)
  {
    hide DecodeEntry;
    if i < n {
      EntriesStayRefused(b, start, i, n - 1);
    }
  }

  method DecodePresetBrowserSnapshot(b: seq<Byte>) returns (r: Result<Browser>)
    ensures r == DecodeSnapshot(b)
  {
    hide DecodeEntry;
    if |b| < HEADER_BYTES || |b| > MAX_SNAPSHOT_BYTES {
      return Err(InvalidMessage);
    }
    if b[0] != 'W' as int || b[1] != 'V' as int || b[2] != 'B' as int {
      return Err(InvalidMessage);
    }
    if b[3] != '2' as int {
      return Err(UnsupportedVersion);
    }
    if KindOf(b[4]).None? || b[5] / 4 != 0 {
      return Err(InvalidShape);
    }
    var entryCount := LoadU16(b[6], b[7]);
    if entryCount > MAX_ENTRIES {
      return Err(LimitExceeded);
    }
    var current := DecodeCurrent(b);
    if current.Refused? {
      return Err(current.error);
    }
    var at := current.at;
    var entries: seq<PresetEntry> := [];
    var i := 0;
    while i < entryCount
      invariant 0 <= i <= entryCount && DecodeEntries(b, current.at, i) == Got(entries, at)
    {
      var entry := ReadEntry(b, at);
      if entry.Refused? {
        EntriesStayRefused(b, current.at, i + 1, entryCount);
        return Err(entry.error);
      }
      entries := entries + [entry.value];
      at := entry.at;
      i := i + 1;
    }
    if at != |b| {
      return Err(InvalidMessage);
    }
    return Ok(Browser(current.value, b[5] / 2 % 2 != 0, entries));
  }

  // ---- Encoded, then decoded ------------------------------------------------------------------------------

  predicate Holds(b: seq<Byte>, at: nat, piece: seq<Byte>) {
    at + |piece| <= |b| && b[at..at + |piece|] == piece
  }

  lemma HoldsBoth(b: seq<Byte>, at: nat, first: seq<Byte>, second: seq<Byte>)
    requires Holds(b, at, first + second)
    ensures Holds(b, at, first) && Holds(b, at + |first|, second)
  {
    var whole := b[at..at + |first + second|];
    assert whole[..|first|] == first && whole[|first|..] == second;
  }

  lemma TagDecodes(b: seq<Byte>, at: nat, tag: Text)
    requires Holds(b, at, U16(|tag|) + tag) && Bounded(tag)
    ensures DecodeTag(b, at) == Got(tag, at + 2 + |tag|)
  {
    HoldsBoth(b, at, U16(|tag|), tag);
    assert b[at] == b[at..at + 2][0] && b[at + 1] == b[at..at + 2][1];
    LoadStored(|tag|);
  }

  lemma {:induction false} TagsDecode(b: seq<Byte>, start: nat, tags: seq<Text>)
    requires Holds(b, start, EncodeTags(tags)) && forall i :: 0 <= i < |tags| ==> Bounded(tags[i])
    ensures DecodeTags(b, start, |tags|) == Got(tags, start + |EncodeTags(tags)|)
  {
    hide DecodeTag, U16;
    if tags != [] {
      var n := |tags| - 1;
      var last := U16(|tags[n]|) + tags[n];
      assert EncodeTags(tags) == EncodeTags(tags[..n]) + last;
      HoldsBoth(b, start, EncodeTags(tags[..n]), last);
      TagsDecode(b, start, tags[..n]);
      TagDecodes(b, start + |EncodeTags(tags[..n])|, tags[n]);
      assert tags[..n] + [tags[n]] == tags;
    }
  }

  function EntryHeader(e: PresetEntry): (h: seq<Byte>)
    requires EncodableEntry(e)
    ensures |h| == ENTRY_HEADER_BYTES
  {
    [KindByte(e.kind), |e.tags|] + U16(|e.identity|) + U16(|e.name|)
  }

  lemma EntryHeaderReads(e: PresetEntry)
    requires EncodableEntry(e)
    ensures
      var h := EntryHeader(e);
      && KindOf(h[0]) == Some(e.kind) && h[1] == |e.tags|
      && LoadU16(h[2], h[3]) == |e.identity| && LoadU16(h[4], h[5]) == |e.name|
  {
    LoadStored(|e.identity|);
    LoadStored(|e.name|);
  }

  lemma EntryDecodes(b: seq<Byte>, at: nat, e: PresetEntry)
    requires EncodableEntry(e) && Holds(b, at, EncodeEntry(e))
    ensures DecodeEntry(b, at) == Got(e, at + |EncodeEntry(e)|)
  {
    hide EntryHeader, EncodeEntry, EncodeTags, DecodeTags, DecodeEntry, LoadU16, KindOf, Holds, ReadString;
    var h := EntryHeader(e);
    EntryHeaderReads(e);
    EntryLayout(e);
    HoldsFour(b, at, h, e.identity, e.name, EncodeTags(e.tags));
    StringReads(b, at + 6, e.identity);
    StringReads(b, at + 6 + |e.identity|, e.name);
    PieceReads(b, at, h);
    TagsDecode(b, at + 6 + |e.identity| + |e.name|, e.tags);
    EntryFromParts(b, at, e, h, at + |EncodeEntry(e)|);
  }

  lemma EntryLayout(e: PresetEntry)
    requires EncodableEntry(e)
    ensures EncodeEntry(e) == EntryHeader(e) + e.identity + e.name + EncodeTags(e.tags)
  {
    hide EncodeTags, U16;
  }

  lemma HoldsFour(b: seq<Byte>, at: nat, first: seq<Byte>, second: seq<Byte>, third: seq<Byte>, fourth: seq<Byte>)
    requires Holds(b, at, first + second + third + fourth)
    ensures Holds(b, at, first) && Holds(b, at + |first|, second)
    ensures Holds(b, at + |first| + |second|, third) && Holds(b, at + |first| + |second| + |third|, fourth)
  {
    hide Holds;
    HoldsBoth(b, at, first + second + third, fourth);
    HoldsBoth(b, at, first + second, third);
    HoldsBoth(b, at, first, second);
  }

  lemma StringReads(b: seq<Byte>, at: nat, text: Text)
    requires Holds(b, at, text) && Bounded(text)
    ensures ReadString(b, at, |text|) == Some(text)
  {
  }

  lemma PieceReads(b: seq<Byte>, at: nat, piece: seq<Byte>)
    requires Holds(b, at, piece)
    ensures forall i :: 0 <= i < |piece| ==> b[at + i] == piece[i]
  {
    forall i | 0 <= i < |piece| ensures b[at + i] == piece[i] {
      assert b[at..at + |piece|][i] == piece[i];
    }
  }

  lemma EntryFromParts(b: seq<Byte>, at: nat, e: PresetEntry, h: seq<Byte>, end: nat)
    requires EncodableEntry(e) && |h| == 6 && at + 6 <= |b| && forall i :: 0 <= i < 6 ==> b[at + i] == h[i]
    requires KindOf(h[0]) == Some(e.kind) && h[1] == |e.tags|
    requires LoadU16(h[2], h[3]) == |e.identity| && LoadU16(h[4], h[5]) == |e.name|
    requires ReadString(b, at + 6, |e.identity|) == Some(e.identity)
    requires ReadString(b, at + 6 + |e.identity|, |e.name|) == Some(e.name)
    requires DecodeTags(b, at + 6 + |e.identity| + |e.name|, |e.tags|) == Got(e.tags, end)
    ensures DecodeEntry(b, at) == Got(e, end)
  {
    hide LoadU16, KindOf, ReadString, DecodeTags;
    assert b[at + 0] == h[0];
  }

  lemma {:induction false} EntriesDecode(b: seq<Byte>, start: nat, entries: seq<PresetEntry>)
    requires EncodableEntries(entries) && Holds(b, start, EncodeEntries(entries))
    ensures DecodeEntries(b, start, |entries|) == Got(entries, start + |EncodeEntries(entries)|)
  {
    hide DecodeEntry, EncodeEntry;
    if entries != [] {
      var n := |entries| - 1;
      HoldsBoth(b, start, EncodeEntries(entries[..n]), EncodeEntry(entries[n]));
      EntriesDecode(b, start, entries[..n]);
      EntryDecodes(b, start + |EncodeEntries(entries[..n])|, entries[n]);
      assert entries[..n] + [entries[n]] == entries;
    }
  }

  function SnapshotPrefix(v: Browser): (h: seq<Byte>)
    requires |v.entries| <= MAX_ENTRIES
    ensures |h| == HEADER_BYTES
    ensures SnapshotHeader(v) == h + v.current.identity + v.current.name
  {
    ['W' as int, 'V' as int, 'B' as int, '2' as int, KindByte(v.current.kind), Flags(v)]
    + U16(|v.entries|) + U16(|v.current.identity|) + U16(|v.current.name|)
  }

  lemma SnapshotPrefixReads(v: Browser)
    requires |v.entries| <= MAX_ENTRIES && Bounded(v.current.identity) && Bounded(v.current.name)
    ensures
      var h := SnapshotPrefix(v);
      && h[0] == 'W' as int && h[1] == 'V' as int && h[2] == 'B' as int && h[3] == '2' as int
      && KindOf(h[4]) == Some(v.current.kind) && h[5] / 4 == 0
      && (h[5] % 2 != 0 <==> v.current.dirty) && (h[5] / 2 % 2 != 0 <==> v.userMutations)
      && LoadU16(h[6], h[7]) == |v.entries|
      && LoadU16(h[8], h[9]) == |v.current.identity| && LoadU16(h[10], h[11]) == |v.current.name|
  {
    LoadStored(|v.entries|);
    LoadStored(|v.current.identity|);
    LoadStored(|v.current.name|);
  }

  /** Whatever can be sent comes back as it was: current state, flags, entries and tags. */
  lemma SnapshotsRoundTrip(v: Browser)
    requires EncodeSnapshot(v).Ok?
    ensures DecodeSnapshot(EncodeSnapshot(v).value) == Ok(v)
  {
    hide SnapshotPrefix, SnapshotHeader, EncodeEntries, DecodeEntries, LoadU16, KindOf, EncodableEntries;
    hide DecodeSnapshot, ReadString;
    var h, b := SnapshotPrefix(v), EncodeSnapshot(v).value;
    SnapshotPrefixReads(v);
    assert b[0..|b|] == b;
    assert Holds(b, 0, h + v.current.identity + v.current.name + EncodeEntries(v.entries));
    hide Holds;
    HoldsFour(b, 0, h, v.current.identity, v.current.name, EncodeEntries(v.entries));
    StringReads(b, 12, v.current.identity);
    StringReads(b, 12 + |v.current.identity|, v.current.name);
    PieceReads(b, 0, h);
    EntriesDecode(b, 12 + |v.current.identity| + |v.current.name|, v.entries);
    SnapshotFromParts(b, v, h);
  }

  lemma SnapshotFromParts(b: seq<Byte>, v: Browser, h: seq<Byte>)
    requires |h| == 12 <= |b| <= MAX_SNAPSHOT_BYTES && (forall i :: 0 <= i < 12 ==> b[0 + i] == h[i])
    requires h[0] == 'W' as int && h[1] == 'V' as int && h[2] == 'B' as int && h[3] == '2' as int
    requires KindOf(h[4]) == Some(v.current.kind) && h[5] / 4 == 0
    requires (h[5] % 2 != 0 <==> v.current.dirty) && (h[5] / 2 % 2 != 0 <==> v.userMutations)
    requires LoadU16(h[6], h[7]) == |v.entries| <= MAX_ENTRIES
    requires LoadU16(h[8], h[9]) == |v.current.identity| && LoadU16(h[10], h[11]) == |v.current.name|
    requires ReadString(b, 12, |v.current.identity|) == Some(v.current.identity)
    requires ReadString(b, 12 + |v.current.identity|, |v.current.name|) == Some(v.current.name)
    requires DecodeEntries(b, 12 + |v.current.identity| + |v.current.name|, |v.entries|) == Got(v.entries, |b|)
    ensures DecodeSnapshot(b) == Ok(v)
  {
    hide LoadU16, KindOf, ReadString, DecodeEntries;
    assert forall i :: 0 <= i < 12 ==> b[i] == b[0 + i];
  }

  // ---- Decoded, then encoded -------------------------------------------------------------------------

  lemma {:induction false} TagsReencode(b: seq<Byte>, start: nat, n: nat)
    requires start <= |b| && DecodeTags(b, start, n).Got?
    ensures
      var r := DecodeTags(b, start, n);
      && start <= r.at <= |b| && b[start..r.at] == EncodeTags(r.value)
      && forall i :: 0 <= i < |r.value| ==> Bounded(r.value[i])
  {
    if n != 0 {
      TagsReencode(b, start, n - 1);
      var before := DecodeTags(b, start, n - 1);
      var r := DecodeTags(b, start, n);
      var tag := r.value[n - 1];
      StoreLoaded(b[before.at], b[before.at + 1]);
      assert r.value[..n - 1] == before.value;
      assert b[before.at..r.at] == U16(|tag|) + tag;
      assert b[start..r.at] == b[start..before.at] + b[before.at..r.at];
    }
  }

  lemma EntryReencodes(b: seq<Byte>, at: nat)
    requires at <= |b| && DecodeEntry(b, at).Got?
    ensures
      var r := DecodeEntry(b, at);
      at <= r.at <= |b| && EncodableEntry(r.value) && b[at..r.at] == EncodeEntry(r.value)
  {
    hide DecodeTags;
    var r := DecodeEntry(b, at);
    var e := r.value;
    var name := at + 6 + |e.identity|;
    TagsReencode(b, name + |e.name|, |e.tags|);
    StoreLoaded(b[at + 2], b[at + 3]);
    StoreLoaded(b[at + 4], b[at + 5]);
    EntryHeaderIs(b, at, e);
    assert b[at..r.at] == b[at..at + 6] + b[at + 6..name] + b[name..name + |e.name|] + b[name + |e.name|..r.at];
  }

  lemma EntryHeaderIs(b: seq<Byte>, at: nat, e: PresetEntry)
    requires at + 6 <= |b| && EncodableEntry(e) && KindOf(b[at]) == Some(e.kind) && b[at + 1] == |e.tags|
    requires U16(|e.identity|) == [b[at + 2], b[at + 3]] && U16(|e.name|) == [b[at + 4], b[at + 5]]
    ensures b[at..at + 6] == EntryHeader(e)
  {
  }

  lemma {:induction false} EntriesReencode(b: seq<Byte>, start: nat, n: nat)
    requires start <= |b| && DecodeEntries(b, start, n).Got?
    ensures
      var r := DecodeEntries(b, start, n);
      start <= r.at <= |b| && EncodableEntries(r.value) && b[start..r.at] == EncodeEntries(r.value)
  {
    hide DecodeEntry, EncodeEntry, EncodableEntry;
    if n != 0 {
      EntriesReencode(b, start, n - 1);
      var before := DecodeEntries(b, start, n - 1);
      EntryReencodes(b, before.at);
      var r := DecodeEntries(b, start, n);
      assert r.value[..n - 1] == before.value;
      assert b[start..r.at] == b[start..before.at] + b[before.at..r.at];
    }
  }

  lemma SnapshotPrefixIs(b: seq<Byte>, v: Browser)
    requires DecodeSnapshot(b) == Ok(v)
    ensures |v.entries| <= MAX_ENTRIES && Bounded(v.current.identity) && Bounded(v.current.name)
    ensures b[..12] == SnapshotPrefix(v)
  {
    hide DecodeEntries;
    StoreLoaded(b[6], b[7]);
    StoreLoaded(b[8], b[9]);
    StoreLoaded(b[10], b[11]);
  }

  lemma SnapshotParts(b: seq<Byte>, v: Browser)
    requires DecodeSnapshot(b) == Ok(v)
    ensures
      var name := 12 + |v.current.identity|;
      var at := name + |v.current.name|;
      && at <= |b| <= MAX_SNAPSHOT_BYTES && b[12..name] == v.current.identity && b[name..at] == v.current.name
      && DecodeEntries(b, at, |v.entries|) == Got(v.entries, |b|)
  {
    hide DecodeEntries, LoadU16, KindOf;
  }

  /** Every accepted byte string is the one encoding of what it decodes to. */
  lemma AcceptedSnapshotsReencode(b: seq<Byte>)
    requires DecodeSnapshot(b).Ok?
    ensures EncodeSnapshot(DecodeSnapshot(b).value) == Ok(b)
  {
    hide DecodeSnapshot, DecodeEntries, EncodeEntries, EncodableEntries, SnapshotPrefix, SnapshotHeader;
    var v := DecodeSnapshot(b).value;
    var name := 12 + |v.current.identity|;
    var at := name + |v.current.name|;
    SnapshotPrefixIs(b, v);
    SnapshotParts(b, v);
    EntriesReencode(b, at, |v.entries|);
    assert b == b[..12] + b[12..name] + b[name..at] + b[at..];
    assert b[at..|b|] == b[at..];
  }
}
