/** The registry of modem/fromenv.go: constructors of modem adapters by vendor, then by
    model, and the choice of one from the configuration (the values of the environment
    variables are parameters). */
module Registry {
  import opened Metrics

  /** `RegisterCallback`: a constructor from the URL, the user name and the password. */
  type Callback<M> = (string, string, string) -> M

  type Registration<M> = map<string, map<string, Callback<M>>>

  /** What `FromEnv` gives back: a modem, or the error naming what was not found. */
  datatype Found<M> = Found(modem: M) | VendorNotFound(vendor: string) | ModelNotFound(vendor: string, model: string)

  /** The registration after `Register(info, cb)`: the vendor's map, created empty when
      the vendor is new, with the model set to `cb`. */
  function Registered<M>(reg: Registration<M>, info: Info, cb: Callback<M>): Registration<M>
  {
    var models := if info.vendor in reg then reg[info.vendor] else map[];
    reg[info.vendor := models[info.model := cb]]
  }

  /** `FromEnv` with the configured vendor, model, URL, user and password. */
  function Lookup<M>(reg: Registration<M>, vendor: string, model: string,
                     url: string, user: string, password: string): (r: Found<M>)
    ensures r.VendorNotFound? <==> vendor !in reg
    ensures r.ModelNotFound? <==> vendor in reg && model !in reg[vendor]
    ensures r.VendorNotFound? ==> r.vendor == vendor
    ensures r.ModelNotFound? ==> r.vendor == vendor && r.model == model
    ensures r.Found? ==> vendor in reg && model in reg[vendor] && r.modem == reg[vendor][model](url, user, password)
  {
    if vendor !in reg then VendorNotFound(vendor)
    else if model !in reg[vendor] then ModelNotFound(vendor, model)
    else Found(reg[vendor][model](url, user, password))
  }

  /** `Register` adds the vendor when it is new and touches no other vendor; within the
      vendor it adds the model and keeps every other model as it was. */
  lemma RegisterFrames<M>(reg: Registration<M>, info: Info, cb: Callback<M>)
    ensures var after := Registered(reg, info, cb);
      after.Keys == reg.Keys + {info.vendor}
      && (forall v :: v in reg && v != info.vendor ==> after[v] == reg[v])
    ensures var after := Registered(reg, info, cb);
      var models := if info.vendor in reg then reg[info.vendor] else map[];
      after[info.vendor].Keys == models.Keys + {info.model}
      && after[info.vendor][info.model] == cb
      && (forall m :: m in models && m != info.model ==> after[info.vendor][m] == models[m])
  {
  }

  /** After `Register(info, cb)` the vendor and model of `info` find `cb`, applied to the
      configuration. */
  lemma RegisterThenLookup<M>(reg: Registration<M>, info: Info, cb: Callback<M>,
                              url: string, user: string, password: string)
    ensures Lookup(Registered(reg, info, cb), info.vendor, info.model, url, user, password)
         == Found(cb(url, user, password))
  {
  }

  /** Every other pair finds what it found before, except that a model of a vendor that
      was new is now reported as a missing model rather than a missing vendor. */
  lemma RegisterKeepsOthers<M>(reg: Registration<M>, info: Info, cb: Callback<M>,
                               vendor: string, model: string, url: string, user: string, password: string)
    requires vendor != info.vendor || model != info.model
    ensures var before := Lookup(reg, vendor, model, url, user, password);
      var after := Lookup(Registered(reg, info, cb), vendor, model, url, user, password);
      if vendor == info.vendor && vendor !in reg then after == ModelNotFound(vendor, model)
      else after == before
  {
    RegisterFrames(reg, info, cb);
  }

  /** Registering the same pair again replaces its constructor: only the last one
      counts. */
  lemma RegisterOverwrites<M>(reg: Registration<M>, info: Info, first: Callback<M>, second: Callback<M>)
    ensures Registered(Registered(reg, info, first), info, second) == Registered(reg, info, second)
  {
    var once := Registered(reg, info, second);
    var twice := Registered(Registered(reg, info, first), info, second);
    assert twice[info.vendor] == once[info.vendor];
  }

  class Registry<M> {
    var registration: Registration<M>

    /** The registration starts empty. */
    constructor ()
      ensures registration == map[]
    {
      registration := map[];
    }

    method Register(info: Info, cb: Callback<M>)
      modifies this
      ensures registration == Registered(old(registration), info, cb)
    {
      var models: map<string, Callback<M>>;
      if info.vendor in registration {
        models := registration[info.vendor];
      } else {
        models := map[];
        registration := registration[info.vendor := models];
      }
      registration := registration[info.vendor := models[info.model := cb]];
    }

    method FromEnv(vendor: string, model: string, url: string, user: string, password: string)
      returns (r: Found<M>)
      ensures r == Lookup(registration, vendor, model, url, user, password)
    {
      if vendor !in registration {
        return VendorNotFound(vendor);
      }
      var models := registration[vendor];
      if model !in models {
        return ModelNotFound(vendor, model);
      }
      var cb := models[model];
      return Found(cb(url, user, password));
    }
  }
}
