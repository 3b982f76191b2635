/**
 * The rows the core reads from the data store, and the lookups it makes on
 * them. A `Store` is one consistent snapshot of the tables a compile pass reads.
 */
module Entities {
  import opened Options

  /** `ListenTypes`: `stream`, `http`, or any other stored value (which the compiler ignores). */
  datatype ListenType = StreamListen | HttpListen | OtherListenType(code: int)

  /** `ListenAddressCheckType`: `white`, `black`, or any other stored value (handled like `black`). */
  datatype AddressCheckType = BlackCheck | WhiteCheck | OtherCheckType(code: int)

  /** A row of `nginx_listen`. */
  datatype Listen = Listen(
    id: nat,
    listenType: ListenType,
    listenPort: nat,
    enableAddressCheck: bool,
    addressCheckType: AddressCheckType)

  /** A row of `nginx_domain`. */
  datatype Domain = Domain(id: nat, domainname: string)

  /** `NginxStreamDestinationType`. */
  datatype DestinationType = DestUpstream | DestListen | DestSshL | DestSshR

  /** `NginxStreamSshR`. */
  datatype SshRType = SshRNone | SshRIn | SshROut

  /** A row of `nginx_stream`, with the destination address and port the compiler reads. */
  datatype StreamRoute = StreamRoute(
    id: nat,
    domainId: nat,
    listenId: nat,
    destinationType: DestinationType,
    destinationListenId: nat,
    index: int,
    loadBalancingAlgorithm: string,
    aliasName: string,
    isDefault: bool,
    sshRType: SshRType,
    sshportId: nat,
    destinationAddress: string,
    destinationPort: nat)

  /** A row of `nginx_http`. */
  datatype HttpRoute = HttpRoute(id: nat, domainId: nat, listenId: nat)

  datatype Store = Store(
    listens: seq<Listen>,
    domains: seq<Domain>,
    streams: seq<StreamRoute>,
    https: seq<HttpRoute>)

  /** `domainRepository.findOne({where: {id}})`: the first domain row with that id, if any. */
  function FindDomain(domains: seq<Domain>, id: nat): (r: Option<Domain>)
    ensures r.Some? ==> r.value in domains && r.value.id == id
    ensures r.None? ==> forall d :: d in domains ==> d.id != id
  {
    if domains == [] then None
    else if domains[0].id == id then Some(domains[0])
    else FindDomain(domains[1..], id)
  }

  /** `streamRepository.find({where: {listen_id}})`: the stream rows of one listener, in table order. */
  function StreamsOfListen(streams: seq<StreamRoute>, listenId: nat): (r: seq<StreamRoute>)
    ensures forall s :: s in r <==> s in streams && s.listenId == listenId
  {
    if streams == [] then []
    else
      var rest := StreamsOfListen(streams[1..], listenId);
      if streams[0].listenId == listenId then [streams[0]] + rest else rest
  }

  /** `httpRepository.find({where: {listen_id}})`: the http rows of one listener, in table order. */
  function HttpsOfListen(https: seq<HttpRoute>, listenId: nat): (r: seq<HttpRoute>)
    ensures forall h :: h in r <==> h in https && h.listenId == listenId
  {
    if https == [] then []
    else
      var rest := HttpsOfListen(https[1..], listenId);
      if https[0].listenId == listenId then [https[0]] + rest else rest
  }

  /** `listenRepository.findOne({where: {id}})`: the first listener row with that id, if any. */
  function FindListen(listens: seq<Listen>, id: int): (r: Option<Listen>)
    ensures r.Some? ==> r.value in listens && r.value.id == id
    ensures r.None? ==> forall l :: l in listens ==> l.id != id
  {
    if listens == [] then None
    else if listens[0].id == id then Some(listens[0])
    else FindListen(listens[1..], id)
  }
}
