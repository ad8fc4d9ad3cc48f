/**
  Track information in DAAP form (raop/daap.go): after eight bytes of padding, items made of a
  four-byte code, a big-endian length and the data. Bytes are characters below 256.
 */
module Daap {
  import opened GoMaps
  import opened GoText

  datatype Kind = ByteKind | TextKind | UnknownKind

  datatype ContentType = ContentType(code: string, name: string, kind: Kind)

  const UNKNOWN := ContentType("", "", UnknownKind)

  const ITEM_KIND := ContentType("mikd", "dmap.itemkind", ByteKind)
  const SONG_ALBUM := ContentType("asal", "daap.songalbum", TextKind)
  const SONG_ARTIST := ContentType("asar", "daap.songartist", TextKind)
  const ITEM_NAME := ContentType("minm", "dmap.itemname", TextKind)

  function TypeOfCode(code: string): ContentType {
    if code == ITEM_KIND.code then ITEM_KIND
    else if code == SONG_ALBUM.code then SONG_ALBUM
    else if code == SONG_ARTIST.code then SONG_ARTIST
    else if code == ITEM_NAME.code then ITEM_NAME
    else UNKNOWN
  }

  function TypeOfName(name: string): ContentType {
    if name == ITEM_KIND.name then ITEM_KIND
    else if name == SONG_ALBUM.name then SONG_ALBUM
    else if name == SONG_ARTIST.name then SONG_ARTIST
    else if name == ITEM_NAME.name then ITEM_NAME
    else UNKNOWN
  }

  predicate KnownName(name: string) {
    TypeOfName(name) != UNKNOWN
  }

  /** Looking a name up and its code up leads to the same entry. */
  lemma TablesAgree(name: string)
    requires KnownName(name)
    ensures TypeOfName(name).name == name && |TypeOfName(name).code| == 4
    ensures TypeOfCode(TypeOfName(name).code) == TypeOfName(name)
    ensures TypeOfName(name).kind != UnknownKind
  {
  }

  datatype Value = OneByte(b: char) | Text(s: string)

  datatype Result<T> = Ok(value: T) | Panic

  // ---------------------------------------------------------------------------
  // Lengths
  // ---------------------------------------------------------------------------

  const LIMIT := 0x1_0000_0000

  /** PutUint32: the low 32 bits, most significant byte first. */
  function BigEndian(n: nat): (s: string)
    ensures |s| == 4
  {
    [(n / 256 / 256 / 256 % 256) as char, (n / 256 / 256 % 256) as char, (n / 256 % 256) as char, (n % 256) as char]
  }

  function FromBigEndian(s: string): nat
    requires |s| == 4
  {
    s[0] as int * 0x100_0000 + s[1] as int * 0x1_0000 + s[2] as int * 256 + s[3] as int
  }

  lemma LengthRoundTrip(n: nat)
    requires n < LIMIT
    ensures FromBigEndian(BigEndian(n)) == n
  {
  }

  /** Most significant byte first: one more byte of length shifts the others to the left. */
  lemma BigEndianShifts(n: nat, b: nat)
    requires n < 0x100_0000 && b < 256
    ensures BigEndian(n * 256 + b) == BigEndian(n)[1..] + [b as char]
    ensures BigEndian(0) == ['\0', '\0', '\0', '\0']
  {
    assert (n * 256 + b) / 256 == n && (n * 256 + b) % 256 == b;
  }

  // ---------------------------------------------------------------------------
  // Reading
  // ---------------------------------------------------------------------------

  type Fields = map<string, Value>

  /** The fields after one more item. */
  function Absorb(fields: Fields, code: string, data: string): Fields {
    var ct := TypeOfCode(code);
    if data == "" then fields
    else match ct.kind
      case ByteKind => fields[ct.name := OneByte(data[0])]
      case TextKind => fields[ct.name := Text(data)]
      case UnknownKind => fields
  }

  /** What one item does to the fields collected so far. */
  type Absorber<!T> = (T, string, string) -> T

  /** The walk of parseDaap over what is left; a truncated item is out of bounds. */
  function Walk<T>(left: string, acc: T, absorb: Absorber<T>): Result<T>
    decreases |left|
  {
    if left == "" then Ok(acc)
    else if |left| < 8 then Panic
    else
      var end := 8 + FromBigEndian(left[4..8]);
      if end > |left| then Panic
      else Walk(left[end..], absorb(acc, left[..4], left[8..end]), absorb)
  }

  function Parse(daap: string): Result<Fields> {
    Walk(if |daap| < 8 then "" else daap[8..], map[], Absorb)
  }

  method AbsorbItem(fields: Fields, itemType: string, data: string) returns (r: Fields)
    ensures r == Absorb(fields, itemType, data)
  {
    r := fields;
    if |data| != 0 {
      var ct := TypeOfCode(itemType);
      match ct.kind {
        case ByteKind => r := r[ct.name := OneByte(data[0])];
        case TextKind => r := r[ct.name := Text(data)];
        case UnknownKind =>
      }
    }
  }

  lemma LeftSlices(daap: string, i: nat, n: nat)
    requires i + 8 + n <= |daap|
    ensures var left := daap[i..];
            && left[..4] == daap[i..i + 4] && left[4..8] == daap[i + 4..i + 8]
            && left[8..8 + n] == daap[i + 8..i + 8 + n] && left[8 + n..] == daap[i + 8 + n..]
  {
  }

  method ParseDaap(daap: string) returns (r: Result<Fields>)
    ensures r == Parse(daap)
  {
    var i: nat := 8;
    var parsed: Fields := map[];
    while i < |daap|
      invariant Parse(daap) == Walk(if i > |daap| then "" else daap[i..], parsed, Absorb)
      decreases |daap| - i
    {
      if i + 8 > |daap| {
        return Panic;
      }
      var itemType := daap[i..i + 4];
      var itemLength := FromBigEndian(daap[i + 4..i + 8]);
      LeftSlices(daap, i, 0);
      if i + 8 + itemLength > |daap| {
        return Panic;
      }
      var data := daap[i + 8..i + 8 + itemLength];
      LeftSlices(daap, i, itemLength);
      parsed := AbsorbItem(parsed, itemType, data);
      i := i + itemLength + 8;
    }
    r := Ok(parsed);
  }

  // ---------------------------------------------------------------------------
  // Item sequences
  // ---------------------------------------------------------------------------

  datatype Item = Item(code: string, data: string)

  predicate GoodItem(item: Item) {
    |item.code| == 4 && |item.data| < LIMIT
  }

  function Bytes(item: Item): string {
    item.code + BigEndian(|item.data|) + item.data
  }

  function AllBytes(items: seq<Item>): string {
    if items == [] then "" else Bytes(items[0]) + AllBytes(items[1..])
  }

  function FoldItems<T>(acc: T, items: seq<Item>, absorb: Absorber<T>): T
    decreases |items|
  {
    if items == [] then acc else FoldItems(absorb(acc, items[0].code, items[0].data), items[1..], absorb)
  }

  function AbsorbAll(fields: Fields, items: seq<Item>): Fields {
    FoldItems(fields, items, Absorb)
  }

  /** The three parts of an item at the front can be cut out, and the rest follows. */
  lemma ItemSlices(item: Item, rest: string)
    requires |item.code| == 4
    ensures var s, end := Bytes(item) + rest, 8 + |item.data|;
            && |s| >= end && s[..4] == item.code && s[4..8] == BigEndian(|item.data|)
            && s[8..end] == item.data && s[end..] == rest
  {
  }

  lemma WalkItem<T>(item: Item, rest: string, acc: T, absorb: Absorber<T>)
    requires GoodItem(item)
    ensures Walk(Bytes(item) + rest, acc, absorb) == Walk(rest, absorb(acc, item.code, item.data), absorb)
  {
    ItemSlices(item, rest);
    LengthRoundTrip(|item.data|);
  }

  /**
    On any sequence of items, known or not, empty or not, parsing stays on item boundaries and takes
    in each item in turn.
   */
  lemma {:induction false} WalkItems<T>(items: seq<Item>, acc: T, absorb: Absorber<T>)
    requires forall j | 0 <= j < |items| :: GoodItem(items[j])
    ensures Walk(AllBytes(items), acc, absorb) == Ok(FoldItems(acc, items, absorb))
    decreases |items|
  {
    if items != [] {
      WalkItem(items[0], AllBytes(items[1..]), acc, absorb);
      WalkItems(items[1..], absorb(acc, items[0].code, items[0].data), absorb);
    }
  }

  /** The value an item stands for. */
  function Meaning(item: Item): Value
    requires item.data != ""
  {
    if TypeOfCode(item.code).kind == ByteKind then OneByte(item.data[0]) else Text(item.data)
  }

  /** The item speaks about the field `name`. */
  predicate Speaks(item: Item, name: string) {
    item.data != "" && TypeOfCode(item.code).kind != UnknownKind && TypeOfCode(item.code).name == name
  }

  lemma {:induction false} FoldAppend<T>(acc: T, items: seq<Item>, item: Item, absorb: Absorber<T>)
    ensures FoldItems(acc, items + [item], absorb) == absorb(FoldItems(acc, items, absorb), item.code, item.data)
    decreases |items|
  {
    if items == [] {
      assert items + [item] == [item];
      assert FoldItems(absorb(acc, item.code, item.data), [item][1..], absorb) == absorb(acc, item.code, item.data);
    } else {
      assert (items + [item])[1..] == items[1..] + [item];
      FoldAppend(absorb(acc, items[0].code, items[0].data), items[1..], item, absorb);
    }
  }

  lemma AbsorbOne(fields: Fields, item: Item, name: string)
    ensures var r := Absorb(fields, item.code, item.data);
            if Speaks(item, name) then name in r && r[name] == Meaning(item)
            else (name in r <==> name in fields) && (name in r ==> r[name] == fields[name])
  {
  }

  /** The position of the last item that speaks about `name`, or -1. */
  function LastSpeaker(items: seq<Item>, name: string): (i: int)
    ensures -1 <= i < |items|
    ensures i >= 0 ==> Speaks(items[i], name)
    ensures forall j | i < j < |items| :: !Speaks(items[j], name)
  {
    if items == [] then -1
    else if Speaks(items[|items| - 1], name) then |items| - 1
    else LastSpeaker(items[..|items| - 1], name)
  }

  /** Each field ends up with the value of the last non-empty item that speaks about it. */
  lemma {:induction false} LastItemWins(items: seq<Item>, name: string)
    ensures var r, i := AbsorbAll(map[], items), LastSpeaker(items, name);
            if i < 0 then name !in r else name in r && r[name] == Meaning(items[i])
  {
    if items != [] {
      var front, last := items[..|items| - 1], items[|items| - 1];
      LastItemWins(front, name);
      assert items == front + [last];
      FoldAppend(map[], front, last, Absorb);
      AbsorbOne(AbsorbAll(map[], front), last, name);
    }
  }

  /** After eight bytes of padding, any items: parsing succeeds, and the last item that speaks about a name decides. */
  lemma ParsedItems(padding: string, items: seq<Item>, name: string)
    requires |padding| == 8 && forall j | 0 <= j < |items| :: GoodItem(items[j])
    ensures var r, i := Parse(padding + AllBytes(items)), LastSpeaker(items, name);
            r.Ok? && if i < 0 then name !in r.value else name in r.value && r.value[name] == Meaning(items[i])
  {
    assert (padding + AllBytes(items))[8..] == AllBytes(items);
    WalkItems(items, map[], Absorb);
    LastItemWins(items, name);
  }

  // ---------------------------------------------------------------------------
  // Which code means what
  // ---------------------------------------------------------------------------

  /** The data of the last non-empty item with the code, or nothing. */
  function LastData(items: seq<Item>, code: string): string {
    if items == [] then ""
    else
      var last := items[|items| - 1];
      if last.code == code && last.data != "" then last.data else LastData(items[..|items| - 1], code)
  }

  /** Items with this code are those that speak about this name. */
  ghost predicate CodeFor(code: string, name: string) {
    forall item: Item :: Speaks(item, name) <==> item.data != "" && item.code == code
  }

  lemma {:induction false} LastSpeakerData(items: seq<Item>, code: string, name: string)
    requires CodeFor(code, name)
    ensures var i := LastSpeaker(items, name); LastData(items, code) == if i < 0 then "" else items[i].data
  {
    if items != [] {
      var front := items[..|items| - 1];
      LastSpeakerData(front, code, name);
      assert Speaks(items[|items| - 1], name) <==> items[|items| - 1].data != "" && items[|items| - 1].code == code;
      assert LastSpeaker(front, name) >= 0 ==> items[LastSpeaker(front, name)] == front[LastSpeaker(front, name)];
    }
  }

  lemma AlbumCode()
    ensures CodeFor("asal", "daap.songalbum") && TypeOfCode("asal").kind == TextKind
  {
    NamesApart();
  }

  lemma ArtistCode()
    ensures CodeFor("asar", "daap.songartist") && TypeOfCode("asar").kind == TextKind
  {
    NamesApart();
  }

  lemma TitleCode()
    ensures CodeFor("minm", "dmap.itemname") && TypeOfCode("minm").kind == TextKind
  {
    NamesApart();
  }

  lemma KindCode()
    ensures CodeFor("mikd", "dmap.itemkind") && TypeOfCode("mikd").kind == ByteKind
  {
    NamesApart();
  }

  lemma NamesApart()
    ensures ITEM_KIND.name != SONG_ALBUM.name && ITEM_KIND.name != SONG_ARTIST.name && ITEM_KIND.name != ITEM_NAME.name
    ensures SONG_ALBUM.name != SONG_ARTIST.name && SONG_ALBUM.name != ITEM_NAME.name
            && SONG_ARTIST.name != ITEM_NAME.name
  {
  }

  lemma TextOfCode(padding: string, items: seq<Item>, code: string, name: string)
    requires |padding| == 8 && forall j | 0 <= j < |items| :: GoodItem(items[j])
    requires CodeFor(code, name) && TypeOfCode(code).kind == TextKind
    ensures var r := Parse(padding + AllBytes(items)); r.Ok? && FieldText(r.value, name) == LastData(items, code)
  {
    ParsedItems(padding, items, name);
    LastSpeakerData(items, code, name);
    var i := LastSpeaker(items, name);
    assert i >= 0 ==> items[i].code == code;
  }

  /**
    Whatever eight bytes and whatever items arrive: the album is what the last non-empty "asal" item
    holds, the artist what "asar" holds, the title what "minm" holds, and empty without one.
   */
  lemma ParsedTrack(padding: string, items: seq<Item>)
    requires |padding| == 8 && forall j | 0 <= j < |items| :: GoodItem(items[j])
    ensures Parse(padding + AllBytes(items)).Ok?
    ensures TrackOf(Parse(padding + AllBytes(items)).value).album == LastData(items, "asal")
    ensures TrackOf(Parse(padding + AllBytes(items)).value).artist == LastData(items, "asar")
    ensures TrackOf(Parse(padding + AllBytes(items)).value).title == LastData(items, "minm")
  {
    AlbumCode();
    TextOfCode(padding, items, "asal", "daap.songalbum");
    ArtistCode();
    TextOfCode(padding, items, "asar", "daap.songartist");
    TitleCode();
    TextOfCode(padding, items, "minm", "dmap.itemname");
  }

  /** The kind is the first byte of the last non-empty "mikd" item. */
  lemma ParsedKind(padding: string, items: seq<Item>)
    requires |padding| == 8 && forall j | 0 <= j < |items| :: GoodItem(items[j])
    ensures var r, data := Parse(padding + AllBytes(items)), LastData(items, "mikd");
            && r.Ok?
            && if data == "" then "dmap.itemkind" !in r.value
               else "dmap.itemkind" in r.value && r.value["dmap.itemkind"] == OneByte(data[0])
  {
    KindCode();
    ParsedItems(padding, items, "dmap.itemkind");
    LastSpeakerData(items, "mikd", "dmap.itemkind");
    var i := LastSpeaker(items, "dmap.itemkind");
    assert i >= 0 ==> items[i].code == "mikd";
  }

  // ---------------------------------------------------------------------------
  // Writing
  // ---------------------------------------------------------------------------

  const PADDING := "\0\0\0\0\0\0\0\0"

  /** What "%s" prints. */
  function AsText(v: Value): string {
    match v
    case Text(s) => s
    case OneByte(b) => "%!s(uint8=" + Itoa(b as int) + ")"
  }

  /** The item for a known name; a text under the byte-valued name fails its type assertion. */
  function ItemFor(name: string, v: Value): Result<Item> {
    var ct := TypeOfName(name);
    if ct.kind == ByteKind then
      (match v case OneByte(b) => Ok(Item(ct.code, [b])) case Text(_) => Panic)
    else Ok(Item(ct.code, AsText(v)))
  }

  /** The items in one iteration order of the map; unknown names leave no trace. */
  function ItemsInOrder(m: Fields, order: seq<string>): Result<seq<Item>>
    requires forall k | k in order :: k in m
  {
    if order == [] then Ok([])
    else
      var k := order[|order| - 1];
      match ItemsInOrder(m, order[..|order| - 1])
      case Panic => Panic
      case Ok(items) =>
        if !KnownName(k) then Ok(items)
        else match ItemFor(k, m[k])
          case Panic => Panic
          case Ok(item) => Ok(items + [item])
  }

  /** No text sits under the byte-valued name. */
  predicate Typed(m: Fields) {
    ITEM_KIND.name in m ==> m[ITEM_KIND.name].OneByte?
  }

  /** The buffer after one more entry. */
  function Appended(buf: string, name: string, v: Value): Result<string> {
    if !KnownName(name) then Ok(buf)
    else match ItemFor(name, v)
      case Panic => Panic
      case Ok(item) => Ok(buf + item.code + BigEndian(|item.data|) + item.data)
  }

  /** The buffer after the entries in the order of `order`. */
  function Written(m: Fields, order: seq<string>): Result<string>
    requires forall k | k in order :: k in m
  {
    if order == [] then Ok(PADDING)
    else
      match Written(m, order[..|order| - 1])
      case Panic => Panic
      case Ok(buf) => Appended(buf, order[|order| - 1], m[order[|order| - 1]])
  }

  method EncodeDaap(m: Fields) returns (r: Result<string>)
    ensures exists order :: Enumerates(order, m.Keys) && r == Written(m, order)
  {
    r := Ok(PADDING);
    ghost var order := [];
    var rest := m.Keys;
    while rest != {}
      invariant rest <= m.Keys
      invariant Enumerates(order, m.Keys - rest)
      invariant r == Written(m, order)
      decreases rest
    {
      var k :| k in rest;
      if r.Ok? {
        r := Appended(r.value, k, m[k]);
      }
      assert (order + [k])[..|order + [k]| - 1] == order;
      EnumeratesMore(order, m.Keys - rest, k);
      assert m.Keys - rest + {k} == m.Keys - (rest - {k});
      order := order + [k];
      rest := rest - {k};
    }
    assert m.Keys - rest == m.Keys;
  }

  lemma {:induction false} WrittenItems(m: Fields, order: seq<string>)
    requires (forall k | k in order :: k in m) && ItemsInOrder(m, order).Ok?
    ensures Written(m, order) == Ok(PADDING + AllBytes(ItemsInOrder(m, order).value))
  {
    if order == [] {
      assert PADDING + AllBytes([]) == PADDING;
    } else {
      var front, k := order[..|order| - 1], order[|order| - 1];
      WrittenItems(m, front);
      if KnownName(k) {
        var items, item := ItemsInOrder(m, front).value, ItemFor(k, m[k]).value;
        AllBytesAppend(items, item);
        Regroup(PADDING, AllBytes(items), item);
      }
    }
  }

  lemma Regroup(padding: string, done: string, item: Item)
    ensures (padding + done) + item.code + BigEndian(|item.data|) + item.data
         == padding + (done + item.code + BigEndian(|item.data|) + item.data)
  {
  }

  lemma {:induction false} AllBytesAppend(items: seq<Item>, item: Item)
    ensures AllBytes(items + [item]) == AllBytes(items) + item.code + BigEndian(|item.data|) + item.data
    decreases |items|
  {
    if items == [] {
      assert AllBytes([item]) == Bytes(item) + AllBytes([item][1..]);
      assert items + [item] == [item];
    } else {
      AllBytesAppend(items[1..], item);
      assert (items + [item])[1..] == items[1..] + [item];
      Regroup(Bytes(items[0]), AllBytes(items[1..]), item);
    }
  }

  // ---------------------------------------------------------------------------
  // The round trip
  // ---------------------------------------------------------------------------

  predicate Fits(m: Fields) {
    forall k | k in m :: |AsText(m[k])| < LIMIT
  }

  /** What the reader gets: the known names that have something to say. */
  function Survivors(m: Fields): Fields {
    map k | k in m && KnownName(k) && AsText(m[k]) != "" :: Received(k, m[k])
  }

  function Received(name: string, v: Value): Value {
    if TypeOfName(name).kind == ByteKind then v else Text(AsText(v))
  }

  function Among(m: Fields, order: seq<string>): Fields {
    map k | k in m && k in order :: m[k]
  }

  lemma {:induction false} ItemsCarrySurvivors(m: Fields, order: seq<string>)
    requires Typed(m) && Fits(m) && forall k | k in order :: k in m
    ensures ItemsInOrder(m, order).Ok?
    ensures forall i | 0 <= i < |ItemsInOrder(m, order).value| :: GoodItem(ItemsInOrder(m, order).value[i])
    ensures AbsorbAll(map[], ItemsInOrder(m, order).value) == Survivors(Among(m, order))
  {
    if order != [] {
      var front, k := order[..|order| - 1], order[|order| - 1];
      ItemsCarrySurvivors(m, front);
      var items := ItemsInOrder(m, front).value;
      LastSurvivor(m, order);
      if KnownName(k) {
        OneSurvivor(m, k);
        FoldAppend(map[], items, ItemFor(k, m[k]).value, Absorb);
      }
    }
  }

  lemma LastSurvivor(m: Fields, order: seq<string>)
    requires order != [] && forall k | k in order :: k in m
    ensures var front, k := order[..|order| - 1], order[|order| - 1];
            Survivors(Among(m, order)) == if KnownName(k) && AsText(m[k]) != ""
                                          then Survivors(Among(m, front))[k := Received(k, m[k])]
                                          else Survivors(Among(m, front))
  {
  }

  lemma OneSurvivor(m: Fields, k: string)
    requires Typed(m) && Fits(m) && k in m && KnownName(k)
    ensures ItemFor(k, m[k]).Ok? && GoodItem(ItemFor(k, m[k]).value)
    ensures forall fields: Fields ::
              Absorb(fields, ItemFor(k, m[k]).value.code, ItemFor(k, m[k]).value.data)
              == if AsText(m[k]) != "" then fields[k := Received(k, m[k])] else fields
  {
  }

  /**
    For every iteration order, reading what was written gives the known names with non-empty values,
    and nothing else.
   */
  lemma EncodeRoundTrip(m: Fields, order: seq<string>)
    requires Typed(m) && Fits(m) && Enumerates(order, m.Keys)
    ensures Written(m, order).Ok? && Parse(Written(m, order).value) == Ok(Survivors(m))
  {
    ItemsCarrySurvivors(m, order);
    WrittenItems(m, order);
    var items := ItemsInOrder(m, order).value;
    assert |PADDING| == 8 && (PADDING + AllBytes(items))[8..] == AllBytes(items);
    WalkItems(items, map[], Absorb);
    assert Among(m, order) == m;
  }

  // ---------------------------------------------------------------------------
  // Track forwarding
  // ---------------------------------------------------------------------------

  datatype Track = Track(album: string, artist: string, title: string)

  /** The map SetTrack encodes for the next speaker. */
  function TrackFields(t: Track): Fields {
    map[SONG_ALBUM.name := Text(t.album), ITEM_NAME.name := Text(t.title), SONG_ARTIST.name := Text(t.artist)]
  }

  function FieldText(fields: Fields, name: string): string {
    if name in fields then AsText(fields[name]) else ""
  }

  /** What the SET_PARAMETER handler passes to its own player. */
  function TrackOf(fields: Fields): Track {
    Track(FieldText(fields, SONG_ALBUM.name), FieldText(fields, SONG_ARTIST.name), FieldText(fields, ITEM_NAME.name))
  }

  /** Every track arrives as it was, empty strings included, whatever order the map is walked in. */
  lemma TrackForwardingIsLossless(t: Track, order: seq<string>)
    requires |t.album| < LIMIT && |t.artist| < LIMIT && |t.title| < LIMIT
    requires Enumerates(order, TrackFields(t).Keys)
    ensures Written(TrackFields(t), order).Ok?
    ensures var r := Parse(Written(TrackFields(t), order).value); r.Ok? && TrackOf(r.value) == t
  {
    TrackFieldsFit(t);
    EncodeRoundTrip(TrackFields(t), order);
    TrackSurvives(t);
  }

  lemma TrackFieldsFit(t: Track)
    requires |t.album| < LIMIT && |t.artist| < LIMIT && |t.title| < LIMIT
    ensures Typed(TrackFields(t)) && Fits(TrackFields(t))
  {
  }

  lemma TrackSurvives(t: Track)
    ensures TrackOf(Survivors(TrackFields(t))) == t
  {
  }

  /** The album is written under "asal", the artist under "asar", the title under "minm". */
  lemma TrackItems(album: string, artist: string, title: string)
    ensures TrackFields(Track(album, artist, title))
         == map["daap.songalbum" := Text(album), "daap.songartist" := Text(artist), "dmap.itemname" := Text(title)]
    ensures ItemFor("daap.songalbum", Text(album)) == Ok(Item("asal", album))
    ensures ItemFor("daap.songartist", Text(artist)) == Ok(Item("asar", artist))
    ensures ItemFor("dmap.itemname", Text(title)) == Ok(Item("minm", title))
  {
    NamesApart();
  }
}
