/** The catalog loader: reads the ads file once, validates its shape and the
    required fields of every ad, caches the catalog, and looks ads up by id. */
module DataLoading {
  import opened Wrappers
  import opened PyValues

  /** A decoded JSON document. Object members hold dictionary values; any
      other top-level value is a scalar. */
  datatype Json =
    | JList(items: seq<Json>)
    | JObject(fields: Record)
    | JScalar(value: Value)

  /** What opening and decoding the ads file yields at the moment of the call. */
  datatype Source =
    | NotFound
    | BadJson
    | IoFailure(reason: string)
    | Parsed(json: Json)

  /** The fields every ad must hold, in the order the error message lists them. */
  const RequiredOrder: seq<string> := ["ad_id", "image_url", "link", "tagline", "text"]

  /** The same fields, as the set the code subtracts the ad's keys from. */
  const RequiredFields: set<string> := {"ad_id", "image_url", "link", "tagline", "text"}

  /** The list and the set name the same five fields, each listed once. */
  lemma RequiredFieldsListed()
    ensures RequiredFields == set f <- RequiredOrder
    ensures |RequiredOrder| == |RequiredFields|
  {
  }

  const LoadErrorPrefix := "Error loading data: "

  const NotListMessage := "JSON data must be a list of dictionaries"

  const MissingFieldsMessage := "Advertisement missing required fields: "

  const NoIdColumnMessage := "'ad_id' column not found in the data"

  predicate IsListOfDicts(j: Json)
  {
    j.JList? && forall k :: 0 <= k < |j.items| ==> j.items[k].JObject?
  }

  /** The dictionaries of a list of JSON objects, in file order. */
  function Dicts(items: seq<Json>): (recs: seq<Record>)
    requires forall k :: 0 <= k < |items| ==> items[k].JObject?
    ensures |recs| == |items|
    ensures forall k :: 0 <= k < |items| ==> recs[k] == items[k].fields
  {
    seq(|items|, k requires 0 <= k < |items| => items[k].fields)
  }

  predicate IsComplete(r: Record)
  {
    RequiredFields <= r.Keys
  }

  /** An ad misses no required field exactly when it is complete. */
  lemma NothingMissingIffComplete(r: Record)
    ensures RequiredFields - r.Keys == {} <==> IsComplete(r)
  {
    if RequiredFields - r.Keys == {} {
      forall f | f in RequiredFields
        ensures f in r.Keys
      {
        assert f !in RequiredFields - r.Keys;
      }
    } else {
      var f :| f in RequiredFields - r.Keys;
      assert f !in r.Keys;
    }
  }

  predicate AllComplete(recs: seq<Record>)
  {
    forall k :: 0 <= k < |recs| ==> IsComplete(recs[k])
  }

  /** The quoted names of `names` that are in `m`, comma separated. */
  function QuotedNames(names: seq<string>, m: set<string>): string
  {
    if names == [] then ""
    else
      var rest := QuotedNames(names[1..], m);
      if names[0] !in m then rest
      else if rest == "" then "'" + names[0] + "'"
      else "'" + names[0] + "', " + rest
  }

  /** The text of a Python set of field names, listed in canonical order. */
  function ShowFieldSet(m: set<string>): string
  {
    "{" + QuotedNames(RequiredOrder, m) + "}"
  }

  /** What `DataLoader.load_data` returns or raises for a given file outcome. */
  function Load(path: string, src: Source): Result<seq<Record>, PyException>
  {
    match src
    case NotFound => Failure(FileNotFoundError("Data file not found at: " + path))
    case BadJson => Failure(ValueError("Invalid JSON format in file: " + path))
    case IoFailure(reason) => Failure(Exception(LoadErrorPrefix + reason))
    case Parsed(j) =>
      if !IsListOfDicts(j) then Failure(Exception(LoadErrorPrefix + NotListMessage))
      else
        var recs := Dicts(j.items);
        var i := FirstFailing(recs, IsComplete);
        if i < |recs| then
          Failure(Exception(LoadErrorPrefix + MissingFieldsMessage + ShowFieldSet(RequiredFields - recs[i].Keys)))
        else Success(recs)
  }

  /** A load succeeds exactly on a JSON list of objects each holding every
      required field (extra fields allowed), and then yields those objects
      unchanged and in file order. */
  lemma LoadSucceedsIff(path: string, src: Source)
    ensures Load(path, src).Success? <==>
              src.Parsed? && IsListOfDicts(src.json) && AllComplete(Dicts(src.json.items))
    ensures Load(path, src).Success? ==> Load(path, src).value == Dicts(src.json.items)
  {
    if src.Parsed? && IsListOfDicts(src.json) {
      var recs := Dicts(src.json.items);
      var i := FirstFailing(recs, IsComplete);
      if !AllComplete(recs) {
        var k :| 0 <= k < |recs| && !IsComplete(recs[k]);
        assert i <= k;
      }
    }
  }

  /** Each failure kind maps to its own exception: a missing file to
      FileNotFoundError, undecodable JSON to ValueError, and every other
      failure to a generic Exception whose message starts "Error loading data: ". */
  lemma LoadErrorKinds(path: string, src: Source)
    ensures src.NotFound? ==> Load(path, src) == Failure(FileNotFoundError("Data file not found at: " + path))
    ensures src.BadJson? ==> Load(path, src) == Failure(ValueError("Invalid JSON format in file: " + path))
    ensures (src.IoFailure? || src.Parsed?) && Load(path, src).Failure? ==>
              Load(path, src).error.Exception? && LoadErrorPrefix <= Load(path, src).error.message
  {
  }

  /** The first ad that lacks a required field decides the error, naming the
      fields it lacks; later ads are not looked at. */
  lemma FirstIncompleteAdFailsLoad(path: string, j: Json, i: nat)
    requires IsListOfDicts(j) && i < |j.items|
    requires forall k :: 0 <= k < i ==> IsComplete(j.items[k].fields)
    requires !IsComplete(j.items[i].fields)
    ensures Load(path, Parsed(j)) ==
              Failure(Exception(LoadErrorPrefix + MissingFieldsMessage + ShowFieldSet(RequiredFields - j.items[i].fields.Keys)))
  {
    var recs := Dicts(j.items);
    assert !IsComplete(recs[i]);
  }

  /** Python's `isinstance(ad_id, str) and ad_id.isdigit()` coercion to int. */
  function CoerceId(key: Value): Value
  {
    if key.Str? && IsAsciiDigits(key.s) then Int(ParseDigits(key.s)) else key
  }

  predicate HasId(r: Record, key: Value)
  {
    "ad_id" in r && r["ad_id"] == key
  }

  /** The first record whose ad_id equals `key`, or None. */
  function FindById(recs: seq<Record>, key: Value): (r: Option<Record>)
    ensures r.Some? <==> exists k :: 0 <= k < |recs| && HasId(recs[k], key)
    ensures r.Some? ==> exists k :: 0 <= k < |recs| && r.value == recs[k] && HasId(recs[k], key) &&
                          forall j :: 0 <= j < k ==> !HasId(recs[j], key)
  {
    var i := FirstFailing(recs, (r: Record) => !HasId(r, key));
    if i < |recs| then Some(recs[i]) else None
  }

  /** The data frame has an ad_id column when some record has an ad_id key. */
  predicate HasIdColumn(recs: seq<Record>)
  {
    exists k :: 0 <= k < |recs| && "ad_id" in recs[k]
  }

  /** What `get_ad_by_id` does once the catalog is loaded. */
  function LookupAd(recs: seq<Record>, key: Value): Result<Option<Record>, PyException>
  {
    if !HasIdColumn(recs) then Failure(ValueError(NoIdColumnMessage))
    else Success(FindById(recs, CoerceId(key)))
  }

  /** On a loaded catalog a lookup never raises for an absent id: it fails
      only when the catalog is empty (the frame then has no columns), and
      otherwise returns the first ad with that id, or None. */
  lemma LookupOnLoadedCatalog(recs: seq<Record>, key: Value)
    requires AllComplete(recs)
    ensures LookupAd(recs, key).Failure? <==> recs == []
    ensures recs != [] ==> LookupAd(recs, key) == Success(FindById(recs, CoerceId(key)))
  {
    if recs != [] {
      assert IsComplete(recs[0]);
      assert "ad_id" in recs[0];
    }
  }

  /** The string of digits of `n` and the integer `n` find the same ad. */
  lemma DigitStringFindsIntId(recs: seq<Record>, n: nat)
    ensures LookupAd(recs, Str(ShowNat(n))) == LookupAd(recs, Int(n))
  {
    ParseShowNat(n);
  }

  /** A digit string never finds an ad whose ad_id is stored as that same
      string: it is compared as an integer. */
  lemma DigitStringMissesStringId(recs: seq<Record>, s: string)
    requires IsAsciiDigits(s)
    ensures LookupAd(recs, Str(s)).Success? && LookupAd(recs, Str(s)).value.Some? ==>
              LookupAd(recs, Str(s)).value.value["ad_id"] == Int(ParseDigits(s))
    ensures (forall k :: 0 <= k < |recs| ==> "ad_id" in recs[k] && recs[k]["ad_id"].Str?) ==>
              LookupAd(recs, Str(s)) == (if recs == [] then Failure(ValueError(NoIdColumnMessage)) else Success(None))
  {
    if recs != [] && "ad_id" in recs[0] {
      assert HasIdColumn(recs);
    }
  }

  class DataLoader {
    const filePath: string
    var data: Option<seq<Record>>

    /** A cached catalog always passed validation. */
    ghost predicate Valid()
      reads this
    {
      data.Some? ==> AllComplete(data.value)
    }

    constructor (filePath: string)
      ensures this.filePath == filePath && data == None && Valid()
    {
      this.filePath := filePath;
      data := None;
    }

    /** Validates the decoded file and caches it; on any failure the cache is
        left as it was. */
    method LoadData(src: Source) returns (r: Result<seq<Record>, PyException>)
      requires Valid()
      modifies this`data
      ensures Valid()
      ensures r == Load(filePath, src)
      ensures data == if r.Success? then Some(r.value) else old(data)
    {
      match src {
        case NotFound =>
          return Failure(FileNotFoundError("Data file not found at: " + filePath));
        case BadJson =>
          return Failure(ValueError("Invalid JSON format in file: " + filePath));
        case IoFailure(reason) =>
          return Failure(Exception(LoadErrorPrefix + reason));
        case Parsed(j) =>
          if !IsListOfDicts(j) {
            return Failure(Exception(LoadErrorPrefix + NotListMessage));
          }
          var ads := Dicts(j.items);
          var i := 0;
          while i < |ads|
            invariant 0 <= i <= |ads|
            invariant forall k :: 0 <= k < i ==> IsComplete(ads[k])
            invariant data == old(data)
          {
            var missing := RequiredFields - ads[i].Keys;
            NothingMissingIffComplete(ads[i]);
            if missing != {} {
              FirstIncompleteAdFailsLoad(filePath, j, i);
              return Failure(Exception(LoadErrorPrefix + MissingFieldsMessage + ShowFieldSet(missing)));
            }
            i := i + 1;
          }
          LoadSucceedsIff(filePath, src);
          data := Some(ads);
          r := Success(ads);
      }
    }

    /** Loads on first use only; afterwards the cached catalog is read. */
    method GetAdById(src: Source, key: Value) returns (r: Result<Option<Record>, PyException>)
      requires Valid()
      modifies this`data
      ensures Valid()
      ensures old(data).Some? ==> data == old(data) && r == LookupAd(data.value, key)
      ensures old(data).None? ==>
                match Load(filePath, src)
                case Failure(e) => r == Failure(e) && data == None
                case Success(recs) => data == Some(recs) && r == LookupAd(recs, key)
    {
      if data.None? {
        var loaded := LoadData(src);
        if loaded.Failure? {
          return Failure(loaded.error);
        }
      }
      r := LookupAd(data.value, key);
    }

    /** Every cached ad as a new dict, in file order; loads on first use only. */
    method GetAllAds(src: Source) returns (r: Result<seq<Dict>, PyException>)
      requires Valid()
      modifies this`data
      ensures Valid()
      ensures old(data).Some? ==> data == old(data)
      ensures old(data).None? ==>
                data == (if Load(filePath, src).Success? then Some(Load(filePath, src).value) else None)
      ensures r.Failure? <==> data.None?
      ensures r.Failure? ==> r.error == Load(filePath, src).error
      ensures r.Success? ==> Entries(r.value) == data.value
      ensures r.Success? ==> forall k :: 0 <= k < |r.value| ==> fresh(r.value[k])
    {
      if data.None? {
        var loaded := LoadData(src);
        if loaded.Failure? {
          return Failure(loaded.error);
        }
      }
      var recs := data.value;
      var ads: seq<Dict> := [];
      while |ads| < |recs|
        invariant data == Some(recs)
        invariant |ads| <= |recs|
        invariant forall k :: 0 <= k < |ads| ==> ads[k].entries == recs[k] && fresh(ads[k])
      {
        var ad := new Dict(recs[|ads|]);
        ads := ads + [ad];
      }
      r := Success(ads);
    }
  }
}
