/**
 * The `Feeder` record and its dict codec. Python does not enforce the
 * attribute types at run time, so the fields hold whatever JSON value the
 * dict carried; `register_feeder` builds feeders whose first three fields are
 * strings. The configuration is opaque; `None` is `JNull`.
 */
module Feeders {
  import opened JsonValues
  import opened Responses

  datatype Feeder = Feeder(feederId: Json, name: Json, location: Json, configuration: Json)

  /** The value `d.get(k)` returns: the stored value, or None when k is absent. */
  function GetOrNull(members: seq<(string, Json)>, k: string): Json
  {
    match Get(members, k)
    case Some(v) => v
    case None => JNull
  }

  /** The key/value insertions of the dict literal in `to_dict`. */
  function Layout(id: Json, name: Json, location: Json, configuration: Json): seq<(string, Json)>
  {
    [("feeder_id", id), ("name", name), ("location", location), ("configuration", configuration)]
  }

  lemma RecordLayout(id: Json, name: Json, location: Json, configuration: Json)
    ensures var members := Layout(id, name, location, configuration);
      && KeySet(members) == {"feeder_id", "name", "location", "configuration"}
      && Get(members, "feeder_id") == Some(id)
      && Get(members, "name") == Some(name)
      && Get(members, "location") == Some(location)
      && Get(members, "configuration") == Some(configuration)
  {
  }

  /** `to_dict`: a four-key dict, in declaration order, holding the fields. */
  function ToDict(f: Feeder): (d: Json)
    ensures d.JObject? && KeySet(d.members) == {"feeder_id", "name", "location", "configuration"}
    ensures Get(d.members, "feeder_id") == Some(f.feederId)
    ensures Get(d.members, "name") == Some(f.name)
    ensures Get(d.members, "location") == Some(f.location)
    ensures Get(d.members, "configuration") == Some(f.configuration)
    ensures Truthy(d)
  {
    RecordLayout(f.feederId, f.name, f.location, f.configuration);
    JObject(Layout(f.feederId, f.name, f.location, f.configuration))
  }

  /**
   * `from_dict`: reads `feeder_id`, `name` and `location` in that order with
   * `data[k]` and the configuration with `data.get`. Its contract is
   * FromDictOutcome below.
   */
  function FromDict(data: Json): Result<Feeder>
  {
    if !data.JObject? then Err(TypeError)
    else
      var id, name, location := Get(data.members, "feeder_id"), Get(data.members, "name"), Get(data.members, "location");
      if id.None? then Err(KeyError("feeder_id"))
      else if name.None? then Err(KeyError("name"))
      else if location.None? then Err(KeyError("location"))
      else Ok(Feeder(id.value, name.value, location.value, GetOrNull(data.members, "configuration")))
  }

  /**
   * `from_dict` succeeds exactly on a dict holding the three mandatory keys;
   * otherwise it raises TypeError for a value that is not a dict and KeyError
   * for the first mandatory key missing. A decoded feeder holds the dict's
   * values, and None when there is no configuration.
   */
  lemma FromDictOutcome(data: Json)
    ensures !data.JObject? ==> FromDict(data) == Err(TypeError)
    ensures data.JObject? ==>
      var ks, r := KeySet(data.members), FromDict(data);
      && (r.Ok? <==> "feeder_id" in ks && "name" in ks && "location" in ks)
      && ("feeder_id" !in ks ==> r == Err(KeyError("feeder_id")))
      && ("feeder_id" in ks && "name" !in ks ==> r == Err(KeyError("name")))
      && ("feeder_id" in ks && "name" in ks && "location" !in ks ==> r == Err(KeyError("location")))
    ensures FromDict(data).Ok? ==>
      var f := FromDict(data).value;
      && Get(data.members, "feeder_id") == Some(f.feederId)
      && Get(data.members, "name") == Some(f.name)
      && Get(data.members, "location") == Some(f.location)
      && f.configuration == GetOrNull(data.members, "configuration")
  {
  }

  /** `from_dict(to_dict(f))` gives back `f`, configuration included. */
  lemma FromDictOfToDict(f: Feeder)
    ensures FromDict(ToDict(f)) == Ok(f)
  {
    FromDictOutcome(ToDict(f));
  }

  /**
   * A dict that decodes is, after one decode/encode pass, in the normal form
   * `to_dict` writes, and further passes leave it as it is.
   */
  lemma NormalFormIsStable(data: Json)
    requires FromDict(data).Ok?
    ensures var d := ToDict(FromDict(data).value);
      FromDict(d) == FromDict(data) && ToDict(FromDict(d).value) == d
  {
    FromDictOfToDict(FromDict(data).value);
  }
}
