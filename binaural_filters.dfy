/**
 * The binaural filter asset registry (`BinauralFiltersWrapper::GetFile`).
 *
 * A fixed table maps 24 key strings `"{order}OA{Profile}{Ear}"` to
 * compiled-in impulse-response assets. An asset is identified by its
 * (order, profile, ear) triple, a `FilterKey`; the bytes of the compiled-in
 * assets are not visible and are a parameter of the lookup (`FilterPayloads`).
 */
module BinauralFilters {
  import opened Wrappers
  import opened AudioElementTypes
  import Cli

  type Byte = bv8

  datatype Ear = Left | Right

  /** The (order, profile, ear) triple naming one compiled-in asset. */
  datatype FilterKey = FilterKey(order: AmbisonicOrder, profile: BinauralFilterProfile, ear: Ear)

  /** The contents of the compiled-in asset behind each key. */
  type FilterPayloads = FilterKey -> seq<Byte>

  // ---------------------------------------------------------------------
  // The naming rule for keys
  // ---------------------------------------------------------------------

  function OrderDigit(n: AmbisonicOrder): char {
    if n == 1 then '1' else if n == 2 then '2' else if n == 3 then '3' else '4'
  }

  function ProfileName(p: BinauralFilterProfile): string {
    match p
    case Direct => "Direct"
    case Ambient => "Ambient"
    case Reverberant => "Reverberant"
  }

  /** The profile part of a key name is the profile's command-line token. */
  lemma ProfileNameIsFlagToken(p: BinauralFilterProfile)
    ensures ProfileName(p) == Cli.UnparseFilterProfile(p)
    ensures ProfileName(p) in Cli.FilterProfileTokens
  {
  }

  function EarLetter(e: Ear): char {
    match e
    case Left => 'L'
    case Right => 'R'
  }

  /** The key string `"{order}OA{Profile}{Ear}"` of an asset. */
  function KeyName(k: FilterKey): string {
    [OrderDigit(k.order)] + "OA" + ProfileName(k.profile) + [EarLetter(k.ear)]
  }

  /** `name` is the key of some asset. */
  ghost predicate IsFilterKeyName(name: string) {
    exists k: FilterKey :: KeyName(k) == name
  }

  /** The parts of a key name sit at fixed places: digit first, ear last, profile fixes the length. */
  lemma KeyNameShape(k: FilterKey)
    ensures |KeyName(k)| == 4 + |ProfileName(k.profile)|
    ensures KeyName(k)[0] == OrderDigit(k.order)
    ensures KeyName(k)[1] == 'O' && KeyName(k)[2] == 'A'
    ensures KeyName(k)[|KeyName(k)| - 1] == EarLetter(k.ear)
  {
  }

  /** Different assets have different key names. */
  lemma KeyNameInjective(a: FilterKey, b: FilterKey)
    ensures KeyName(a) == KeyName(b) ==> a == b
  {
    if KeyName(a) == KeyName(b) {
      KeyNameShape(a);
      KeyNameShape(b);
      assert OrderDigit(a.order) == OrderDigit(b.order);
      assert |ProfileName(a.profile)| == |ProfileName(b.profile)|;
      assert EarLetter(a.ear) == EarLetter(b.ear);
    }
  }

  // ---------------------------------------------------------------------
  // The table
  // ---------------------------------------------------------------------

  /** One initialiser of the static asset table: a key string and the asset it names. */
  datatype AssetEntry = AssetEntry(name: string, asset: FilterKey)

  /** The table's initialiser list, in the order the source lists it. */
  const AssetEntries: seq<AssetEntry> := [
    AssetEntry("1OAAmbientL", FilterKey(1, Ambient, Left)),
    AssetEntry("1OAAmbientR", FilterKey(1, Ambient, Right)),
    AssetEntry("1OADirectL", FilterKey(1, Direct, Left)),
    AssetEntry("1OADirectR", FilterKey(1, Direct, Right)),
    AssetEntry("1OAReverberantL", FilterKey(1, Reverberant, Left)),
    AssetEntry("1OAReverberantR", FilterKey(1, Reverberant, Right)),
    AssetEntry("2OAAmbientL", FilterKey(2, Ambient, Left)),
    AssetEntry("2OAAmbientR", FilterKey(2, Ambient, Right)),
    AssetEntry("2OADirectL", FilterKey(2, Direct, Left)),
    AssetEntry("2OADirectR", FilterKey(2, Direct, Right)),
    AssetEntry("2OAReverberantL", FilterKey(2, Reverberant, Left)),
    AssetEntry("2OAReverberantR", FilterKey(2, Reverberant, Right)),
    AssetEntry("3OAAmbientL", FilterKey(3, Ambient, Left)),
    AssetEntry("3OAAmbientR", FilterKey(3, Ambient, Right)),
    AssetEntry("3OADirectL", FilterKey(3, Direct, Left)),
    AssetEntry("3OADirectR", FilterKey(3, Direct, Right)),
    AssetEntry("3OAReverberantL", FilterKey(3, Reverberant, Left)),
    AssetEntry("3OAReverberantR", FilterKey(3, Reverberant, Right)),
    AssetEntry("4OAAmbientL", FilterKey(4, Ambient, Left)),
    AssetEntry("4OAAmbientR", FilterKey(4, Ambient, Right)),
    AssetEntry("4OADirectL", FilterKey(4, Direct, Left)),
    AssetEntry("4OADirectR", FilterKey(4, Direct, Right)),
    AssetEntry("4OAReverberantL", FilterKey(4, Reverberant, Left)),
    AssetEntry("4OAReverberantR", FilterKey(4, Reverberant, Right))
  ]

  predicate NamesDistinct(entries: seq<AssetEntry>) {
    forall i, j :: 0 <= i < j < |entries| ==> entries[i].name != entries[j].name
  }

  /** Dropping the first initialiser keeps the key strings distinct. */
  lemma NamesDistinctTail(entries: seq<AssetEntry>)
    requires entries != [] && NamesDistinct(entries)
    ensures NamesDistinct(entries[1..])
  {
  }

  /** The key strings of an initialiser list. */
  function Names(entries: seq<AssetEntry>): set<string> {
    if entries == [] then {} else {entries[0].name} + Names(entries[1..])
  }

  /** A string is among the key strings exactly when some initialiser carries it. */
  lemma {:induction false} NamesAt(entries: seq<AssetEntry>, name: string)
    ensures name in Names(entries) <==> exists i :: 0 <= i < |entries| && entries[i].name == name
  {
    if entries != [] {
      NamesAt(entries[1..], name);
      if name in Names(entries[1..]) {
        var i :| 0 <= i < |entries[1..]| && entries[1..][i].name == name;
        assert entries[i + 1].name == name;
      }
      if i :| 0 < i < |entries| && entries[i].name == name {
        assert entries[1..][i - 1].name == name;
      }
    }
  }

  /**
   * Builds a hash map from an initialiser list. Where two entries share a key
   * the model keeps the earlier one; the initialiser list here has no such
   * pair (`EntryNamesDistinct`).
   */
  function InsertAll(entries: seq<AssetEntry>): (m: map<string, FilterKey>)
    ensures m.Keys == Names(entries)
  {
    if entries == [] then map[]
    else InsertAll(entries[1..])[entries[0].name := entries[0].asset]
  }

  /** Without duplicate keys the map has one key per entry. */
  lemma {:induction false} InsertAllSize(entries: seq<AssetEntry>)
    requires NamesDistinct(entries)
    ensures |InsertAll(entries)| == |entries|
  {
    if entries != [] {
      var rest := entries[1..];
      NamesDistinctTail(entries);
      InsertAllSize(rest);
      forall i | 0 <= i < |rest| ensures rest[i].name != entries[0].name {
        assert rest[i] == entries[i + 1];
      }
      NamesAt(rest, entries[0].name);
    }
  }

  /** Without duplicate keys every entry's key maps to that entry's asset. */
  lemma {:induction false} InsertAllAt(entries: seq<AssetEntry>, i: nat)
    requires NamesDistinct(entries)
    requires i < |entries|
    ensures entries[i].name in InsertAll(entries)
    ensures InsertAll(entries)[entries[i].name] == entries[i].asset
  {
    if i > 0 {
      var rest := entries[1..];
      NamesDistinctTail(entries);
      InsertAllAt(rest, i - 1);
      assert rest[i - 1] == entries[i];
    }
  }

  /** The static asset table, built once from the initialiser list. */
  const AssetMap: map<string, FilterKey> := InsertAll(AssetEntries)

  /** Position of an asset's entry in the initialiser list. */
  function EntryIndex(k: FilterKey): (i: nat)
    ensures i < |AssetEntries|
  {
    var p := match k.profile case Ambient => 0 case Direct => 1 case Reverberant => 2;
    var e := match k.ear case Left => 0 case Right => 1;
    (k.order - 1) * 6 + p * 2 + e
  }

  /** An initialiser whose key string is its asset's name under the naming rule. */
  predicate WellNamed(e: AssetEntry) {
    e.name == KeyName(e.asset)
  }

  /** The six initialisers of order 1 follow the naming rule. */
  lemma Order1EntriesWellNamed()
    ensures forall i :: 0 <= i < 6 ==> WellNamed(AssetEntries[i])
  {
  }

  /** The six initialisers of order 2 follow the naming rule. */
  lemma Order2EntriesWellNamed()
    ensures forall i :: 6 <= i < 12 ==> WellNamed(AssetEntries[i])
  {
  }

  /** The six initialisers of order 3 follow the naming rule. */
  lemma Order3EntriesWellNamed()
    ensures forall i :: 12 <= i < 18 ==> WellNamed(AssetEntries[i])
  {
  }

  /** The six initialisers of order 4 follow the naming rule. */
  lemma Order4EntriesWellNamed()
    ensures forall i :: 18 <= i < 24 ==> WellNamed(AssetEntries[i])
  {
  }

  /** Every initialiser follows the naming rule. */
  lemma EntriesWellNamed()
    ensures forall i :: 0 <= i < |AssetEntries| ==> WellNamed(AssetEntries[i])
  {
    Order1EntriesWellNamed();
    Order2EntriesWellNamed();
    Order3EntriesWellNamed();
    Order4EntriesWellNamed();
  }

  /** Every initialiser sits at its asset's index, so no asset is listed twice. */
  lemma EntriesAtTheirIndex()
    ensures forall i :: 0 <= i < |AssetEntries| ==> EntryIndex(AssetEntries[i].asset) == i
  {
  }

  /** The entry at an asset's index is that asset's entry: every asset is listed. */
  lemma EntryAtIndex(k: FilterKey)
    ensures AssetEntries[EntryIndex(k)].asset == k
  {
  }

  /** The initialiser list has no duplicate keys. */
  lemma EntryNamesDistinct()
    ensures NamesDistinct(AssetEntries)
  {
    EntriesWellNamed();
    EntriesAtTheirIndex();
    forall i, j | 0 <= i < j < |AssetEntries|
      ensures AssetEntries[i].name != AssetEntries[j].name
    {
      KeyNameInjective(AssetEntries[i].asset, AssetEntries[j].asset);
    }
  }

  /** The table holds exactly 24 keys: the initialisers, none dropped as a duplicate. */
  lemma AssetMapSize()
    ensures |AssetMap| == 24
  {
    EntryNamesDistinct();
    InsertAllSize(AssetEntries);
  }

  /** Each asset's key name is in the table and resolves to that asset. */
  lemma AssetMapResolves(k: FilterKey)
    ensures KeyName(k) in AssetMap && AssetMap[KeyName(k)] == k
  {
    EntryNamesDistinct();
    EntriesWellNamed();
    var i := EntryIndex(k);
    EntryAtIndex(k);
    InsertAllAt(AssetEntries, i);
  }

  /** A map built from well-named initialisers holds nothing but key names. */
  lemma InsertAllOnlyKeyNames(entries: seq<AssetEntry>, name: string)
    requires forall i :: 0 <= i < |entries| ==> WellNamed(entries[i])
    requires name in InsertAll(entries)
    ensures IsFilterKeyName(name)
  {
  }

  /** The table holds nothing but key names. */
  lemma AssetMapOnlyKeyNames(name: string)
    requires name in AssetMap
    ensures IsFilterKeyName(name)
  {
    EntriesWellNamed();
    InsertAllOnlyKeyNames(AssetEntries, name);
  }

  // ---------------------------------------------------------------------
  // Lookup
  // ---------------------------------------------------------------------

  /**
   * `GetFile`: an exact-match lookup returning a copy of the asset's bytes,
   * or `None` (the null pointer) for a name that is not a key.
   */
  function GetFile(payloads: FilterPayloads, filename: string): (r: Option<seq<Byte>>)
    ensures r.Some? <==> IsFilterKeyName(filename)
    ensures forall k: FilterKey :: KeyName(k) == filename ==> r == Some(payloads(k))
  {
    if filename in AssetMap then
      AssetMapOnlyKeyNames(filename);
      var k := AssetMap[filename];
      assert forall k' :: KeyName(k') == filename ==> k' == k by {
        forall k' | KeyName(k') == filename ensures k' == k { AssetMapResolves(k'); }
      }
      Some(payloads(k))
    else
      assert forall k :: KeyName(k) != filename by {
        forall k ensures KeyName(k) != filename { AssetMapResolves(k); }
      }
      None
  }

  /** Every key `"{1..4}OA{Direct|Ambient|Reverberant}{L|R}"` resolves to a copy of its own asset. */
  lemma GetFileFindsEveryAsset(payloads: FilterPayloads, k: FilterKey)
    ensures GetFile(payloads, KeyName(k)) == Some(payloads(k))
    ensures |GetFile(payloads, KeyName(k)).value| == |payloads(k)|
  {
  }

  /** When every compiled-in asset has content, every key lookup returns a non-empty buffer. */
  lemma GetFileNonEmpty(payloads: FilterPayloads, k: FilterKey)
    requires forall a: FilterKey :: |payloads(a)| > 0
    ensures GetFile(payloads, KeyName(k)).Some?
    ensures |GetFile(payloads, KeyName(k)).value| > 0
  {
  }

  /** The result for a key depends on that key's asset alone. */
  lemma GetFileReadsOnlyItsAsset(p: FilterPayloads, q: FilterPayloads, k: FilterKey)
    requires p(k) == q(k)
    ensures GetFile(p, KeyName(k)) == GetFile(q, KeyName(k))
  {
  }

  /**
   * A name that is too short, starts with anything but an order digit 1-4,
   * does not continue with the upper-case "OA", or does not end in an ear
   * letter is no key name.
   */
  predicate Malformed(name: string) {
    |name| < 10 || name[0] !in "1234" || name[1..3] != "OA" || name[|name| - 1] !in "LR"
  }

  lemma MalformedIsNoKeyName(name: string)
    requires Malformed(name)
    ensures !IsFilterKeyName(name)
  {
  }

  /** Malformed names are absent. */
  lemma GetFileRejectsMalformed(payloads: FilterPayloads, name: string)
    requires Malformed(name)
    ensures GetFile(payloads, name) == None
  {
    MalformedIsNoKeyName(name);
  }

  /** A fifth order, the empty name, other casing and a missing ear are all absent. */
  lemma GetFileRejectsOtherNames(payloads: FilterPayloads)
    ensures GetFile(payloads, "5OAAmbientL") == None
    ensures GetFile(payloads, "") == None
    ensures GetFile(payloads, "1oaambientl") == None
    ensures GetFile(payloads, "1OAAmbient") == None
  {
    assert Malformed("5OAAmbientL") && Malformed("") && Malformed("1OAAmbient");
    assert Malformed("1oaambientl") by { assert "1oaambientl"[1] == 'o'; }
    MalformedIsNoKeyName("5OAAmbientL");
    MalformedIsNoKeyName("");
    MalformedIsNoKeyName("1oaambientl");
    MalformedIsNoKeyName("1OAAmbient");
  }
}
