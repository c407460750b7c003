/** The service detail page (src/pages/ServicePage.tsx): the fetched row is
    copied and its `features` and `benefits` are forced to arrays. */
module ServicePage {
  import opened Common
  import opened Json

  /** `Array.isArray(v) ? v : []`. */
  function ArrayOrEmpty(v: Option<Json>): (r: Json)
    ensures r.JArray?
  {
    if IsArray(v) then v.value else JArray([])
  }

  /** `processedData`: `{ ...data, features: ..., benefits: ... }`. */
  function ProcessedData(data: map<string, Json>): (r: map<string, Json>)
    ensures r.Keys == data.Keys + {"features", "benefits"}
    ensures r["features"].JArray? && r["benefits"].JArray?
    ensures "features" in data && data["features"].JArray? ==> r["features"] == data["features"]
    ensures !("features" in data && data["features"].JArray?) ==> r["features"] == JArray([])
    ensures "benefits" in data && data["benefits"].JArray? ==> r["benefits"] == data["benefits"]
    ensures !("benefits" in data && data["benefits"].JArray?) ==> r["benefits"] == JArray([])
    ensures forall k :: k in data && k != "features" && k != "benefits" ==> r[k] == data[k]
  {
    var row := Some(JObject(data));
    data["features" := ArrayOrEmpty(Member(row, "features"))]
        ["benefits" := ArrayOrEmpty(Member(row, "benefits"))]
  }

  /** Normalising a normalised record changes nothing. */
  lemma ProcessedDataIdempotent(data: map<string, Json>)
    ensures ProcessedData(ProcessedData(data)) == ProcessedData(data)
  {
    var once := ProcessedData(data);
    var twice := ProcessedData(once);
    assert twice.Keys == once.Keys;
    forall k | k in once ensures twice[k] == once[k] {
    }
  }

  /** A record whose two list fields are already arrays comes through
      exactly as fetched. */
  lemma ProcessedDataKeepsWellFormed(data: map<string, Json>)
    requires "features" in data && data["features"].JArray?
    requires "benefits" in data && data["benefits"].JArray?
    ensures ProcessedData(data) == data
  {
    var r := ProcessedData(data);
    assert r.Keys == data.Keys;
    forall k | k in data ensures r[k] == data[k] {
    }
  }

  /** What the `services` query returns: an error, or the single row. */
  datatype ServiceResponse = ServiceQueryError | ServiceRow(data: map<string, Json>)

  class ServicePageState {
    var service: Option<map<string, Json>>
    var toasts: seq<Toast>

    /** `useState<Service | null>(null)`. */
    constructor ()
      ensures service == None && toasts == []
    {
      service := None;
      toasts := [];
    }

    /** `fetchService` once the query has answered (ServicePage.tsx:32-48). */
    method OnServiceFetched(response: ServiceResponse)
      modifies this
      ensures response.ServiceQueryError? ==>
        service == old(service) && toasts == old(toasts) + [ServiceFetchFailed]
      ensures response.ServiceRow? ==>
        service == Some(ProcessedData(response.data)) && toasts == old(toasts)
    {
      if response.ServiceQueryError? {
        toasts := toasts + [ServiceFetchFailed];
        return;
      }
      service := Some(ProcessedData(response.data));
    }
  }
}
