/**
 * The save hook of the tracking-record collection. On create, a record without a tracking ID
 * gets one of the form `TRX-<year><month>-<slug>-<SUFFIX>`; then the sender's and afterwards the
 * recipient's address is geocoded when it is new, changed or lacks coordinates, and the
 * coordinates found are written into the record in place. The calendar date, `slugify`, the
 * random number's base-36 text and the geocoder are parameters.
 */
module TrackingInfo {
  import opened Optional
  import opened Decimal

  /** JavaScript truthiness of optional text and numbers: missing, `""` and `0` are false. */
  predicate TruthyText(s: Option<string>) {
    s.Some? && s.value != ""
  }

  predicate TruthyNumber(x: Option<real>) {
    x.Some? && x.value != 0.0
  }

  /** `String.prototype.substring(start, end)`: both bounds clamped to the length, then ordered. */
  function JsSubstring(s: string, start: int, end: int): (r: string)
    ensures |r| <= |s|
    ensures 0 <= start <= end <= |s| ==> r == s[start..end]
    ensures 0 <= end <= start <= |s| ==> r == s[end..start]
  {
    var a := if start < 0 then 0 else if start > |s| then |s| else start;
    var b := if end < 0 then 0 else if end > |s| then |s| else end;
    if a <= b then s[a..b] else s[b..a]
  }

  predicate IsLower(c: char) {
    'a' <= c <= 'z'
  }

  function UpperChar(c: char): (u: char)
    ensures !IsLower(u)
    ensures !IsLower(c) ==> u == c
  {
    if IsLower(c) then (c as int - 32) as char else c
  }

  /** `toUpperCase` on the characters `toString(36)` produces: ASCII letters, digits and the point. */
  function ToUpper(s: string): (r: string)
    ensures |r| == |s|
    ensures forall i :: 0 <= i < |r| ==> r[i] == UpperChar(s[i]) && !IsLower(r[i])
  {
    seq(|s|, i requires 0 <= i < |s| => UpperChar(s[i]))
  }

  /** Text without a lower-case letter is its own upper case. */
  lemma ToUpperIdentity(s: string)
    requires forall i :: 0 <= i < |s| ==> !IsLower(s[i])
    ensures ToUpper(s) == s
  {
  }

  /** `String(n).padStart(width, fill)`. */
  function PadStart(s: string, width: nat, fill: char): (r: string)
    ensures |r| == if |s| >= width then |s| else width
    ensures r[|r| - |s|..] == s
    ensures forall i :: 0 <= i < |r| - |s| ==> r[i] == fill
  {
    if |s| >= width then s else Repeat(fill, width - |s|) + s
  }

  /** `n` copies of `c`. */
  function Repeat(c: char, n: nat): (r: string)
    ensures |r| == n
    ensures forall i :: 0 <= i < n ==> r[i] == c
  {
    if n == 0 then [] else [c] + Repeat(c, n - 1)
  }

  /** The month of the ID: `getMonth() + 1`, left-padded with a zero. */
  function Month2(month: nat): (r: string)
    ensures 1 <= month <= 12 ==> |r| == 2 && AllDigits(r) && ParseDigits(r) == month
  {
    var r := PadStart(NatToString(month), 2, '0');
    if month < 10 then
      assert r == ['0', DigitChar(month)];
      assert r[..1] == "0" && ParseDigits(r[..1]) == 0 by {
        assert r[..1][..0] == [];
      }
      r
    else
      ParseNatToString(month);
      r
  }

  /** What is handed to `slugify`: the first ten characters of the name, or `"package"`. */
  function SlugInput(packageName: Option<string>): (r: string)
    ensures !TruthyText(packageName) ==> r == "package"
    ensures TruthyText(packageName) ==> 1 <= |r| <= 10 && r <= packageName.value
    ensures TruthyText(packageName) && |packageName.value| <= 10 ==> r == packageName.value
    ensures TruthyText(packageName) && |packageName.value| >= 10 ==> r == packageName.value[..10]
  {
    match packageName
    case None => "package"
    case Some(name) =>
      var cut := JsSubstring(name, 0, 10);
      if cut != "" then cut else "package"
  }

  /** `Math.random().toString(36).substring(2, 8).toUpperCase()`, given the base-36 text. */
  function UniqueSuffix(base36: string): (r: string)
    ensures |r| <= 6
    ensures |base36| >= 8 ==> |r| == 6 && r == ToUpper(base36[2..8])
    ensures forall i :: 0 <= i < |r| ==> !IsLower(r[i])
  {
    ToUpper(JsSubstring(base36, 2, 8))
  }

  /**
   * The template `TRX-${year}${month}-${nameSlug}-${uniqueSuffix}`, given the texts interpolated
   * into it: after the "TRX-" prefix come, in order, the year, the month, a dash, the slug, and a
   * dash before the suffix.
   */
  function GeneratedTrackingId(year: string, month: string, slug: string, suffix: string): (id: string)
    ensures |id| == 6 + |year| + |month| + |slug| + |suffix|
    ensures id[..4] == "TRX-"
    ensures id[4..4 + |year|] == year
    ensures id[4 + |year|..4 + |year| + |month|] == month
    ensures id[4 + |year| + |month|] == '-'
    ensures id[5 + |year| + |month|..5 + |year| + |month| + |slug|] == slug
    ensures id[|id| - |suffix|..] == suffix && id[|id| - |suffix| - 1] == '-'
  {
    var id := "TRX-" + year + month + "-" + slug + "-" + suffix;
    IdParts(id, year, month, slug, suffix);
    id
  }

  /**
   * For a calendar month the ID's year part is the canonical numeral of the year, and the two
   * characters after it are digits that read back as the month.
   */
  lemma GeneratedTrackingIdDate(year: int, monthIndex: nat, slug: string, suffix: string)
    requires monthIndex < 12
    ensures var yearText := IntToString(year);
      var month := Month2(monthIndex + 1);
      var id := GeneratedTrackingId(yearText, month, slug, suffix);
      var y := |yearText|;
      && |month| == 2
      && |id| == 8 + y + |slug| + |suffix|
      && id[4..4 + y] == yearText
      && AllDigits(id[4 + y..6 + y]) && ParseDigits(id[4 + y..6 + y]) == monthIndex + 1
  {
    var month := Month2(monthIndex + 1);
    var id := GeneratedTrackingId(IntToString(year), month, slug, suffix);
    assert |month| == 2;
    assert id[4 + |IntToString(year)|..6 + |IntToString(year)|] == month;
  }

  /** Where each part of `"TRX-" + year + month + "-" + slug + "-" + suffix` lands. */
  lemma IdParts(id: string, yearText: string, month: string, slug: string, suffix: string)
    requires id == "TRX-" + yearText + month + "-" + slug + "-" + suffix
    ensures var y := |yearText|;
      var m := |month|;
      && |id| == 6 + y + m + |slug| + |suffix|
      && id[..4] == "TRX-"
      && id[4..4 + y] == yearText
      && id[4 + y..4 + y + m] == month
      && id[4 + y + m] == '-'
      && id[5 + y + m..5 + y + m + |slug|] == slug
      && id[|id| - |suffix|..] == suffix && id[|id| - |suffix| - 1] == '-'
  {
    var q := "TRX-" + yearText;
    var p := q + month;
    var head := p + "-";
    var tail := slug + "-" + suffix;
    assert id == head + tail;
    PartsOfConcat(head, tail);
    PartsOfConcat(p, "-");
    PartsOfConcat(q, month);
    PartsOfConcat("TRX-", yearText);
    PartsOfConcat(slug + "-", suffix);
    PartsOfConcat(slug, "-");
    assert id[..|q|] == q;
    assert id[..|p|] == p;
    var rest := id[|head|..];
    assert rest[..|slug|] == slug;
    assert id[|head|..|head| + |slug|] == rest[..|slug|];
    assert rest[|rest| - |suffix|..] == suffix;
  }

  /** The two halves of a concatenation can be sliced back out of it. */
  lemma PartsOfConcat(a: string, b: string)
    ensures (a + b)[..|a|] == a && (a + b)[|a|..] == b
  {
  }

  /**
   * A letter the slug keeps in lower case survives into the ID, so the ID is not its own upper
   * case: a lookup that upper-cases what it searches for cannot find it.
   */
  lemma GeneratedIdNotUpperCase(year: string, month: string, slug: string, suffix: string, k: nat)
    requires k < |slug| && IsLower(slug[k])
    ensures ToUpper(GeneratedTrackingId(year, month, slug, suffix)) != GeneratedTrackingId(year, month, slug, suffix)
  {
    var id := GeneratedTrackingId(year, month, slug, suffix);
    var at := 5 + |year| + |month| + k;
    var slugPart := id[at - k..at - k + |slug|];
    assert slugPart[k] == slug[k];
    assert id[at] == slug[k];
    assert ToUpper(id)[at] != id[at];
  }

  /** An address block of the record: the text and the coordinates stored for it. */
  datatype Party = Party(address: Option<string>, latitude: Option<real>, longitude: Option<real>)

  datatype Coords = Coords(latitude: real, longitude: real)

  datatype Operation = Create | Update

  /** The two address blocks of the record as stored before this save. */
  datatype Original = Original(sender: Option<Party>, recipient: Option<Party>)

  datatype FieldKey = SenderKey | RecipientKey

  function OriginalField(original: Original, key: FieldKey): Option<Party> {
    match key
    case SenderKey => original.sender
    case RecipientKey => original.recipient
  }

  /** `originalFieldData?.address`: undefined when the block is missing. */
  function OriginalAddress(original: Original, key: FieldKey): Option<string> {
    match OriginalField(original, key)
    case None => None
    case Some(p) => p.address
  }

  /**
   * `shouldGeocode`: an address is given, and either there is no stored record, the address
   * changed, or a coordinate is missing (zero counts as missing).
   */
  function ShouldGeocode(field: Option<Party>, originalDoc: Option<Original>, key: FieldKey): (b: bool)
    ensures b ==> field.Some? && TruthyText(field.value.address)
    ensures field.Some? && TruthyText(field.value.address) && originalDoc.None? ==> b
    ensures field.Some? && TruthyText(field.value.address) && originalDoc.Some? ==>
      (b <==> || OriginalAddress(originalDoc.value, key) != field.value.address
               || !TruthyNumber(field.value.latitude)
               || !TruthyNumber(field.value.longitude))
  {
    && field.Some? && TruthyText(field.value.address)
    && (|| originalDoc.None?
        || OriginalAddress(originalDoc.value, key) != field.value.address
        || !TruthyNumber(field.value.latitude)
        || !TruthyNumber(field.value.longitude))
  }

  /** The write-back: create the block if it is missing, then overwrite both coordinates. */
  function WriteCoords(field: Option<Party>, c: Coords): (p: Party)
    ensures p.latitude == Some(c.latitude) && p.longitude == Some(c.longitude)
    ensures field.Some? ==> p.address == field.value.address
    ensures field.None? ==> p.address.None?
  {
    match field
    case None => Party(None, Some(c.latitude), Some(c.longitude))
    case Some(f) => f.(latitude := Some(c.latitude), longitude := Some(c.longitude))
  }

  /** The address block after `geocodeField`, given what the geocoder answers. */
  function Geocoded(field: Option<Party>, originalDoc: Option<Original>, key: FieldKey, geocode: string -> Option<Coords>): (r: Option<Party>)
    ensures !ShouldGeocode(field, originalDoc, key) ==> r == field
    ensures ShouldGeocode(field, originalDoc, key) && geocode(field.value.address.value).None? ==> r == field
    ensures ShouldGeocode(field, originalDoc, key) && geocode(field.value.address.value).Some? ==>
      r == Some(WriteCoords(field, geocode(field.value.address.value).value))
  {
    if ShouldGeocode(field, originalDoc, key) then
      match geocode(field.value.address.value)
      case None => field
      case Some(c) => Some(WriteCoords(field, c))
    else field
  }

  /** Geocoding touches only the coordinates, and never has to create a missing block. */
  lemma GeocodedKeepsAddress(field: Option<Party>, originalDoc: Option<Original>, key: FieldKey, geocode: string -> Option<Coords>)
    ensures field.None? ==> Geocoded(field, originalDoc, key, geocode) == None
    ensures field.Some? ==> Geocoded(field, originalDoc, key, geocode).Some?
    ensures field.Some? ==> Geocoded(field, originalDoc, key, geocode).value.address == field.value.address
  {
  }

  /** Saving again right after a geocoded save, with nothing changed, does not geocode again. */
  lemma SecondSaveSkipsGeocode(field: Option<Party>, originalDoc: Option<Original>, key: FieldKey, geocode: string -> Option<Coords>, other: Option<Party>)
    requires ShouldGeocode(field, originalDoc, key)
    requires geocode(field.value.address.value).Some?
    requires var c := geocode(field.value.address.value).value; c.latitude != 0.0 && c.longitude != 0.0
    ensures var stored := Geocoded(field, originalDoc, key, geocode);
      var again := if key == SenderKey then Original(stored, other) else Original(other, stored);
      !ShouldGeocode(stored, Some(again), key)
  {
  }

  /** A stored latitude of exactly 0 (the equator) reads as missing, so it is geocoded on every save. */
  lemma EquatorAlwaysRegeocoded(address: string, longitude: real, key: FieldKey)
    requires address != ""
    ensures var field := Some(Party(Some(address), Some(0.0), Some(longitude)));
      ShouldGeocode(field, Some(Original(field, field)), key)
  {
  }

  /** The addresses looked up by one `geocodeField` call. */
  function Lookups(field: Option<Party>, originalDoc: Option<Original>, key: FieldKey): (q: seq<string>)
    ensures |q| <= 1
    ensures |q| == 1 <==> ShouldGeocode(field, originalDoc, key)
    ensures |q| == 1 ==> q[0] == field.value.address.value && q[0] != ""
  {
    if ShouldGeocode(field, originalDoc, key) then [field.value.address.value] else []
  }

  /** The record as the hook receives it; the hook changes it in place and returns it. */
  class TrackingDoc {
    var trackingID: Option<string>
    var packageName: Option<string>
    var sender: Option<Party>
    var recipient: Option<Party>

    constructor (trackingID: Option<string>, packageName: Option<string>, sender: Option<Party>, recipient: Option<Party>)
      ensures this.trackingID == trackingID && this.packageName == packageName
      ensures this.sender == sender && this.recipient == recipient
    {
      this.trackingID := trackingID;
      this.packageName := packageName;
      this.sender := sender;
      this.recipient := recipient;
    }

    function Field(key: FieldKey): Option<Party>
      reads this
    {
      match key
      case SenderKey => sender
      case RecipientKey => recipient
    }
  }

  /** `geocodeField(fieldKey)`; returns the address it looked up, if any. */
  method GeocodeField(data: TrackingDoc, key: FieldKey, originalDoc: Option<Original>, geocode: string -> Option<Coords>)
      returns (lookup: seq<string>)
    modifies data
    ensures data.Field(key) == Geocoded(old(data.Field(key)), originalDoc, key, geocode)
    ensures key == SenderKey ==> data.recipient == old(data.recipient)
    ensures key == RecipientKey ==> data.sender == old(data.sender)
    ensures data.trackingID == old(data.trackingID) && data.packageName == old(data.packageName)
    ensures lookup == Lookups(old(data.Field(key)), originalDoc, key)
  {
    var fieldData := data.Field(key);
    lookup := [];
    if ShouldGeocode(fieldData, originalDoc, key) {
      var address := fieldData.value.address.value;
      lookup := [address];
      var coords := geocode(address);
      if coords.Some? {
        var block := data.Field(key);
        if block.None? {
          block := Some(Party(None, None, None));
        }
        var written := block.value.(latitude := Some(coords.value.latitude), longitude := Some(coords.value.longitude));
        assert Some(written) == Some(WriteCoords(fieldData, coords.value));
        if key == SenderKey {
          data.sender := Some(written);
        } else {
          data.recipient := Some(written);
        }
      }
    }
  }

  /**
   * The `beforeChange` hook. `year` and `monthIndex` are the calendar fields of the receipt
   * date (or of the current date), `slugify` the slug library and `base36` the text of the
   * random number; the returned lookups are the geocoder calls in the order they are made.
   */
  method BeforeChange(data: TrackingDoc, operation: Operation, originalDoc: Option<Original>,
                      year: int, monthIndex: nat, slugify: string -> string, base36: string,
                      geocode: string -> Option<Coords>)
      returns (result: TrackingDoc, lookups: seq<string>)
    modifies data
    ensures result == data
    ensures operation == Create && !TruthyText(old(data.trackingID)) ==>
      data.trackingID == Some(GeneratedTrackingId(IntToString(year), Month2(monthIndex + 1), slugify(SlugInput(old(data.packageName))), UniqueSuffix(base36)))
    ensures !(operation == Create && !TruthyText(old(data.trackingID))) ==> data.trackingID == old(data.trackingID)
    ensures data.packageName == old(data.packageName)
    ensures data.sender == Geocoded(old(data.sender), originalDoc, SenderKey, geocode)
    ensures data.recipient == Geocoded(old(data.recipient), originalDoc, RecipientKey, geocode)
    ensures lookups == Lookups(old(data.sender), originalDoc, SenderKey) + Lookups(old(data.recipient), originalDoc, RecipientKey)
  {
    if operation == Create && !TruthyText(data.trackingID) {
      var month := Month2(monthIndex + 1);
      var nameSlug := slugify(SlugInput(data.packageName));
      var uniqueSuffix := UniqueSuffix(base36);
      data.trackingID := Some("TRX-" + IntToString(year) + month + "-" + nameSlug + "-" + uniqueSuffix);
    }
    var first := GeocodeField(data, SenderKey, originalDoc, geocode);
    var second := GeocodeField(data, RecipientKey, originalDoc, geocode);
    lookups := first + second;
    result := data;
  }
}
