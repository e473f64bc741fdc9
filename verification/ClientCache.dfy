/** The cache of provider clients: a call returns what building a fresh client would. */
module ClientCache {

  datatype Address = Internal | Public

  datatype Spec = Spec(
    endpoint: string, publicEndpoint: string, region: string, bucket: string, pathStyle: bool,
    accessKey: string, secretKey: string)

  /** What a client does is fixed by these; its connection pool is not part of this model. */
  datatype Client = Client(
    endpoint: string, region: string, bucket: string, pathStyle: bool, accessKey: string, secretKey: string)

  function Build(spec: Spec, address: Address): Client {
    Client(if address == Internal then spec.endpoint else spec.publicEndpoint,
           spec.region, spec.bucket, spec.pathStyle, spec.accessKey, spec.secretKey)
  }

  /** A client of the server's own address talks to the endpoint, one handed out to others to the
      public endpoint; in everything else it is what the spec says. */
  lemma BuiltForItsAddress(spec: Spec, address: Address)
    ensures var client := Build(spec, address);
            (address == Internal ==> client.endpoint == spec.endpoint) &&
            (address == Public ==> client.endpoint == spec.publicEndpoint) &&
            client.region == spec.region && client.bucket == spec.bucket && client.pathStyle == spec.pathStyle &&
            client.accessKey == spec.accessKey && client.secretKey == spec.secretKey
  {
  }

  /** The comparison that decides whether a cached client may be reused. */
  predicate SameSpec(p: Spec, q: Spec) {
    p.endpoint == q.endpoint && p.publicEndpoint == q.publicEndpoint && p.region == q.region &&
    p.bucket == q.bucket && p.pathStyle == q.pathStyle && p.accessKey == q.accessKey && p.secretKey == q.secretKey
  }

  datatype Entry = Entry(spec: Spec, client: Client)

  class Cache {
    var entries: map<(string, Address), Entry>

    /** Every entry was built from its own spec for its own address. */
    ghost predicate Valid()
      reads this
    {
      forall k | k in entries :: entries[k].client == Build(entries[k].spec, k.1)
    }

    constructor ()
      ensures Valid() && entries == map[]
    {
      entries := map[];
    }

    /** Reuses the entry of this storage and address if its spec is still the requested one,
        otherwise builds and replaces it; a poisoned lock skips the cache. Whatever was asked
        before, the client is the one a fresh build gives. */
    method Get(id: string, spec: Spec, address: Address, readable: bool, writable: bool) returns (client: Client)
      requires Valid()
      modifies this
      ensures client.endpoint == match address case Internal => spec.endpoint case Public => spec.publicEndpoint
      ensures client.region == spec.region && client.bucket == spec.bucket && client.pathStyle == spec.pathStyle &&
              client.accessKey == spec.accessKey && client.secretKey == spec.secretKey
      ensures Valid() && client == Build(spec, address)
      ensures forall k | k != (id, address) ::
                (k in entries <==> k in old(entries)) && (k in entries ==> entries[k] == old(entries)[k])
      ensures readable && writable ==> (id, address) in entries && entries[(id, address)] == Entry(spec, client)
      ensures !writable ==> entries == old(entries)
      ensures writable && !(readable && (id, address) in old(entries) && old(entries)[(id, address)].spec == spec) ==>
                (id, address) in entries && entries[(id, address)] == Entry(spec, client)
    {
      if readable && (id, address) in entries && SameSpec(entries[(id, address)].spec, spec) {
        return entries[(id, address)].client;
      }
      client := Build(spec, address);
      if writable {
        entries := entries[(id, address) := Entry(spec, client)];
      }
    }
  }

  datatype Request = Request(id: string, spec: Spec, address: Address)

  /** What the cache holds after a sequence of requests. */
  function Entries(requests: seq<Request>): map<(string, Address), Entry> {
    if requests == [] then map[]
    else
      var r := requests[|requests| - 1];
      Entries(requests[..|requests| - 1])[(r.id, r.address) := Entry(r.spec, Build(r.spec, r.address))]
  }

  function Answer(requests: seq<Request>, r: Request): Client {
    var entries := Entries(requests);
    if (r.id, r.address) in entries && SameSpec(entries[(r.id, r.address)].spec, r.spec)
    then entries[(r.id, r.address)].client else Build(r.spec, r.address)
  }

  /** After any requests - other storages, rotated credentials, moved endpoints, the other address
      - the answer is that of a fresh client. */
  lemma {:induction false} CacheIsTransparent(requests: seq<Request>, r: Request)
    ensures Answer(requests, r) == Build(r.spec, r.address)
    decreases |requests|
  {
    if requests != [] {
      CacheIsTransparent(requests[..|requests| - 1], r);
    }
  }
}
