/**
 * The REST reader of das/restful_client.go: a client that holds only its base URL, and a
 * GetByHash that fetches a payload over HTTP, checks its content hash and then runs the
 * certified-read check.
 *
 * The HTTP request, the body read, the JSON envelope and the base64 decoding are one abstract
 * exchange (`Gateway.httpGet`); the agent that supplies the root key and the CBOR decoder are
 * abstract as well.
 */
module Restful {
  import opened Types
  import opened GoFormat
  import ICUtils

  datatype RestfulDasClient = RestfulDasClient(url: string)

  /** The path of the server's get-by-hash endpoint. */
  const GetByHashRequestPath: string := "/get-by-hash/"

  /** An HTTP answer: its status, and the base64-decoded `data` of its JSON body, or the first error on the way there. */
  datatype Response = Response(status: int, payload: Result<Bytes>)

  /** Everything GetByHash consults besides the client and the hash. */
  datatype Gateway = Gateway(
    httpGet: string -> Result<Response>,
    newAgent: Result<Bytes>,                                // a fresh agent's root key, or why it could not be made
    decodeIntoClient: Bytes -> Outcome,                     // cbor.Unmarshal(decodedBytes, &c)
    decodeBlock: Bytes -> Result<ICUtils.CertifiedBlock>,   // cbor.Unmarshal(decodedBytes, &cb)
    dastree: DasTree,
    ic: ICUtils.Primitives,
    canister: ICUtils.Principal)                            // the configured test canister

  /** strings.HasPrefix: the string is the prefix followed by something. */
  function HasPrefix(s: string, prefix: string): (b: bool)
    ensures b <==> exists t :: s == prefix + t
  {
    if |prefix| <= |s| && s[..|prefix|] == prefix then
      assert s == prefix + s[|prefix|..];
      true
    else
      false
  }

  /** The URL is the protocol, "://", the host, ":" and then the port in decimal, which reads back as the port. */
  function NewRestfulDasClient(protocol: string, host: string, port: int): (c: RestfulDasClient)
    ensures var head := protocol + "://" + host + ":";
      && HasPrefix(c.url, head)
      && c.url[|head|..] == Decimal(port)
      && ParseDecimal(c.url[|head|..]) == port
  {
    var head := protocol + "://" + host + ":";
    assert (head + Decimal(port))[..|head|] == head;
    assert (head + Decimal(port))[|head|..] == Decimal(port);
    RestfulDasClient(head + Decimal(port))
  }

  /** Accepts exactly the URLs that start with "http://" or "https://", and keeps them as they are. */
  function NewRestfulDasClientFromURL(url: string): (r: Result<RestfulDasClient>)
    ensures r.Ok? <==> HasPrefix(url, "http://") || HasPrefix(url, "https://")
    ensures r.Ok? ==> r.value.url == url
    ensures r.Err? ==> r.error == MissingProtocolPrefix(url)
  {
    if !(HasPrefix(url, "http://") || HasPrefix(url, "https://")) then Err(MissingProtocolPrefix(url))
    else Ok(RestfulDasClient(url))
  }

  /** A client built from "http" or "https" is one the URL constructor accepts unchanged. */
  lemma BuiltUrlAccepted(protocol: string, host: string, port: int)
    requires protocol == "http" || protocol == "https"
    ensures NewRestfulDasClientFromURL(NewRestfulDasClient(protocol, host, port).url) == Ok(NewRestfulDasClient(protocol, host, port))
  {
    BuiltUrlHasProtocol(protocol, host, Decimal(port));
  }

  /** Any URL of the shape the constructor builds from "http" or "https" has that protocol's prefix. */
  lemma BuiltUrlHasProtocol(protocol: string, host: string, port: string)
    requires protocol == "http" || protocol == "https"
    ensures var u := protocol + "://" + host + ":" + port;
      HasPrefix(u, "http://") || HasPrefix(u, "https://")
  {
    var p := protocol + "://";
    var u := protocol + "://" + host + ":" + port;
    assert u == p + (host + ":" + port);
    assert u[..|p|] == p;
    assert p == "http://" || p == "https://";
  }

  /** Prepends "0x" to a hash text of exactly 64 characters. */
  function PrefixHash(s: string): (r: string)
    ensures |s| == 64 ==> r == "0x" + s
    ensures |s| != 64 ==> r == s
  {
    if |s| == 64 then "0x" + s else s
  }

  /** A hash's Hex text already has its "0x" and 66 characters, so it is never prefixed again. */
  lemma HashHexNeverReprefixed(hash: Hash32)
    ensures PrefixHash(Hex(hash)) == Hex(hash) && HasPrefix(PrefixHash(Hex(hash)), "0x")
  {
  }

  /** The request GetByHash sends: the base URL, the endpoint path and the hash's own Hex text. */
  function RequestUrl(c: RestfulDasClient, hash: Hash32): (u: string)
    ensures u == c.url + GetByHashRequestPath + Hex(hash)
  {
    c.url + GetByHashRequestPath + PrefixHash(Hex(hash))
  }

  /** The certified block the check is run on: `var cb CertifiedBlock`, never written to. */
  const UnfilledBlock: ICUtils.CertifiedBlock := ICUtils.CertifiedBlock([], [], [])

  function GetByHash(c: RestfulDasClient, hash: Hash32, g: Gateway): (r: Result<Bytes>)
    ensures g.httpGet(RequestUrl(c, hash)).Err? ==> r == Err(g.httpGet(RequestUrl(c, hash)).error)
    ensures g.httpGet(RequestUrl(c, hash)).Ok? && g.httpGet(RequestUrl(c, hash)).value.status != 200 ==>
              r == Err(HttpStatus(g.httpGet(RequestUrl(c, hash)).value.status))
    ensures (g.httpGet(RequestUrl(c, hash)).Ok? && g.httpGet(RequestUrl(c, hash)).value.status == 200
             && g.httpGet(RequestUrl(c, hash)).value.payload.Err?) ==>
              r == Err(g.httpGet(RequestUrl(c, hash)).value.payload.error)
    ensures forall d :: g.httpGet(RequestUrl(c, hash)) == Ok(Response(200, Ok(d))) && !g.dastree.validHash(hash, d) ==>
              r == Err(HashMismatch)
    ensures r.Ok? ==>
              && g.httpGet(RequestUrl(c, hash)) == Ok(Response(200, Ok(r.value)))
              && g.dastree.validHash(hash, r.value)
              && g.newAgent.Ok?
              && g.decodeIntoClient(r.value).Pass?
              && ICUtils.VerifyDataFromIC(g.ic, [], g.newAgent.value, g.canister, []).outcome.Pass?
  {
    match g.httpGet(RequestUrl(c, hash))
    case Err(e) => Err(e)
    case Ok(res) =>
      if res.status != 200 then Err(HttpStatus(res.status))
      else
        match res.payload
        case Err(e) => Err(e)
        case Ok(decoded) =>
          if !g.dastree.validHash(hash, decoded) then Err(HashMismatch)
          else
            match g.newAgent
            case Err(e) => Err(e)
            case Ok(rootKey) =>
              var cb := UnfilledBlock;
              match g.decodeIntoClient(decoded)
              case Fail(e) => Err(e)
              case Pass =>
                match ICUtils.VerifyDataFromIC(g.ic, cb.certificate, rootKey, g.canister, cb.witnessBytes).outcome
                case Fail(e) => Err(e)
                case Pass => Ok(decoded)
  }

  /**
   * The certificate and witness checked are the empty ones whatever the payload: when the
   * empty certificate does not decode, nothing is ever returned.
   */
  lemma EmptyCertificateAlwaysRejected(c: RestfulDasClient, hash: Hash32, g: Gateway)
    requires g.ic.decodeCertificate([]).Err?
    ensures GetByHash(c, hash, g).Err?
  {
  }

  /**
   * When the tree's hash check accepts every blob under its own hash, the payload stored
   * under the requested hash gets past the content-hash step, and only the agent, the
   * decoding and the check of the empty pair decide whether it is returned.
   */
  lemma PreimagePassesContentHash(c: RestfulDasClient, g: Gateway, d: Bytes)
    requires HashValidates(g.dastree)
    requires g.httpGet(RequestUrl(c, g.dastree.hash(d))) == Ok(Response(200, Ok(d)))
    ensures GetByHash(c, g.dastree.hash(d), g).Ok? <==>
              && g.newAgent.Ok?
              && g.decodeIntoClient(d).Pass?
              && ICUtils.VerifyDataFromIC(g.ic, [], g.newAgent.value, g.canister, []).outcome.Pass?
    ensures GetByHash(c, g.dastree.hash(d), g).Ok? ==> GetByHash(c, g.dastree.hash(d), g).value == d
  {
  }

  /**
   * And when the empty pair does verify, every payload with the right content hash is
   * returned: its own certificate and witness are never looked at.
   */
  lemma PayloadNeverCertified(c: RestfulDasClient, hash: Hash32, g: Gateway, d: Bytes)
    requires g.httpGet(RequestUrl(c, hash)) == Ok(Response(200, Ok(d)))
    requires g.dastree.validHash(hash, d) && g.newAgent.Ok? && g.decodeIntoClient(d).Pass?
    requires ICUtils.VerifyDataFromIC(g.ic, [], g.newAgent.value, g.canister, []).outcome.Pass?
    ensures GetByHash(c, hash, g) == Ok(d)
  {
  }

  /** GetByHash with the payload decoded into the block that is then checked. */
  function GetByHashVerifyingBlock(c: RestfulDasClient, hash: Hash32, g: Gateway): (r: Result<Bytes>)
    ensures g.httpGet(RequestUrl(c, hash)).Err? ==> r == Err(g.httpGet(RequestUrl(c, hash)).error)
    ensures (g.httpGet(RequestUrl(c, hash)).Ok? && g.httpGet(RequestUrl(c, hash)).value.status == 200
             && g.httpGet(RequestUrl(c, hash)).value.payload.Err?) ==>
              r == Err(g.httpGet(RequestUrl(c, hash)).value.payload.error)
    ensures g.httpGet(RequestUrl(c, hash)).Ok? && g.httpGet(RequestUrl(c, hash)).value.status != 200 ==>
              r == Err(HttpStatus(g.httpGet(RequestUrl(c, hash)).value.status))
    ensures forall d :: g.httpGet(RequestUrl(c, hash)) == Ok(Response(200, Ok(d))) && !g.dastree.validHash(hash, d) ==>
              r == Err(HashMismatch)
    ensures r.Ok? ==>
              && g.httpGet(RequestUrl(c, hash)) == Ok(Response(200, Ok(r.value)))
              && g.dastree.validHash(hash, r.value)
              && g.newAgent.Ok?
              && g.decodeBlock(r.value).Ok?
              && var cb := g.decodeBlock(r.value).value;
                 ICUtils.VerifyDataFromIC(g.ic, cb.certificate, g.newAgent.value, g.canister, cb.witnessBytes).outcome.Pass?
  {
    match g.httpGet(RequestUrl(c, hash))
    case Err(e) => Err(e)
    case Ok(res) =>
      if res.status != 200 then Err(HttpStatus(res.status))
      else
        match res.payload
        case Err(e) => Err(e)
        case Ok(decoded) =>
          if !g.dastree.validHash(hash, decoded) then Err(HashMismatch)
          else
            match g.newAgent
            case Err(e) => Err(e)
            case Ok(rootKey) =>
              match g.decodeBlock(decoded)
              case Err(e) => Err(e)
              case Ok(cb) =>
                match ICUtils.VerifyDataFromIC(g.ic, cb.certificate, rootKey, g.canister, cb.witnessBytes).outcome
                case Fail(e) => Err(e)
                case Pass => Ok(decoded)
  }

  /** With the block decoded, a payload whose own certificate fails is never returned. */
  lemma FailingBlockRejected(c: RestfulDasClient, hash: Hash32, g: Gateway, d: Bytes)
    requires g.httpGet(RequestUrl(c, hash)) == Ok(Response(200, Ok(d)))
    requires g.newAgent.Ok? && g.decodeBlock(d).Ok?
    requires var cb := g.decodeBlock(d).value;
      ICUtils.VerifyDataFromIC(g.ic, cb.certificate, g.newAgent.value, g.canister, cb.witnessBytes).outcome.Fail?
    ensures GetByHashVerifyingBlock(c, hash, g).Err?
  {
  }
}
