/**
 The Hello exchange.  HMAC (RFC 2104, section 2) is not looked into: a shared key is the
 function that gives the 32-byte tag of a message under it.
 */
module Handshake {
  import opened Bytes
  import opened Bincode
  import opened Messages
  import opened Texts

  type Tag = Nonce
  type Key = seq<byte> -> Tag

  function Mac(key: Key, nonce: Nonce, role: string): Vec<byte> {
    key(nonce + Ascii(role))
  }

  function ClientProof(key: Key, nonce: Nonce): Vec<byte> {
    Mac(key, nonce, "wolfusb-client")
  }

  function ServerProof(key: Key, nonce: Nonce): Vec<byte> {
    Mac(key, nonce, "wolfusb-server")
  }

  // ----- Client, first half -----

  function ClientHello(key: Option<Key>, name: Text, nonce: Nonce): HelloRequest {
    HelloRequest(PROTOCOL_VERSION, name, nonce, if key.Some? then ClientProof(key.value, nonce) else [])
  }

  // ----- Server -----

  predicate Admits(key: Option<Key>, req: HelloRequest) {
    && req.protocolVersion == PROTOCOL_VERSION
    && (key.Some? ==> req.authProof == ClientProof(key.value, req.authNonce))
  }

  function Refusal(text: Text): HelloReply {
    HelloReply(PROTOCOL_VERSION, TextOf("wolfusb"), false, [], Some(text))
  }

  function VersionText(v: u32): Text {
    TextOf("Protocol version mismatch: server=" + Decimal(PROTOCOL_VERSION) + ", client=" + Decimal(v))
  }

  function ServerReply(key: Option<Key>, req: HelloRequest): HelloReply {
    if req.protocolVersion != PROTOCOL_VERSION then Refusal(VersionText(req.protocolVersion))
    else if !Admits(key, req) then Refusal(TextOf("Authentication failed"))
    else HelloReply(PROTOCOL_VERSION, TextOf("wolfusb"), true,
                    if key.Some? then ServerProof(key.value, req.authNonce) else [], None)
  }

  // ----- Client, second half -----

  /** What the mount client demands of the reply; it does not look at the version. */
  predicate MountAccepts(key: Option<Key>, nonce: Nonce, reply: HelloReply) {
    && reply.authAccepted
    && (key.Some? ==> reply.authChallengeResponse == ServerProof(key.value, nonce))
  }

  /** The session client demands the version as well. */
  predicate SessionAccepts(key: Option<Key>, nonce: Nonce, reply: HelloReply) {
    MountAccepts(key, nonce, reply) && reply.protocolVersion == PROTOCOL_VERSION
  }

  // ----- Agreement -----

  /** Both sides hold keys that give the same two tags. */
  predicate KeysAgree(client: Option<Key>, server: Option<Key>, nonce: Nonce) {
    || (client.None? && server.None?)
    || (client.Some? && server.Some?
        && ClientProof(client.value, nonce) == ClientProof(server.value, nonce)
        && ServerProof(client.value, nonce) == ServerProof(server.value, nonce))
  }

  /** Client and server both end up authenticated if and only if neither has a key or both do and their tags agree. */
  lemma BothAuthenticatedIff(client: Option<Key>, server: Option<Key>, name: Text, nonce: Nonce)
    ensures var req := ClientHello(client, name, nonce);
            Admits(server, req) && MountAccepts(client, nonce, ServerReply(server, req))
            <==> KeysAgree(client, server, nonce)
  {
    var req := ClientHello(client, name, nonce);
    if server.Some? {
      assert |ClientProof(server.value, nonce)| == 32;
    }
    if client.Some? {
      assert |ServerProof(client.value, nonce)| == 32;
    }
  }

  /** The flag in the reply is the server's own decision, and the version never decides: the two
      clients accept the same replies of this server. */
  lemma ClientsAgree(client: Option<Key>, server: Option<Key>, nonce: Nonce, req: HelloRequest)
    ensures ServerReply(server, req).authAccepted <==> Admits(server, req)
    ensures SessionAccepts(client, nonce, ServerReply(server, req))
            <==> MountAccepts(client, nonce, ServerReply(server, req))
  {
  }

  /** A client that has a key rejects a server that has none, although that server let it in; a
      client that has none is refused by a server that has one. */
  lemma OneSidedKeys(key: Key, name: Text, nonce: Nonce)
    ensures var req := ClientHello(Some(key), name, nonce);
            Admits(None, req) && !MountAccepts(Some(key), nonce, ServerReply(None, req))
    ensures !Admits(Some(key), ClientHello(None, name, nonce))
  {
    assert |ServerProof(key, nonce)| == 32 && |ClientProof(key, nonce)| == 32;
  }

  /** Both sides come to the same verdict, accepted or not, if and only if the client has no key, or
      both have one and the server's tag agrees whenever the client's does. */
  lemma EndsAgreeIff(client: Option<Key>, server: Option<Key>, name: Text, nonce: Nonce)
    ensures var req := ClientHello(client, name, nonce);
            (Admits(server, req) <==> MountAccepts(client, nonce, ServerReply(server, req)))
            <==> (client.None?
                  || (server.Some?
                      && (ClientProof(client.value, nonce) == ClientProof(server.value, nonce) ==>
                            ServerProof(client.value, nonce) == ServerProof(server.value, nonce))))
  {
    if server.Some? {
      assert |ClientProof(server.value, nonce)| == 32;
    }
    if client.Some? {
      assert |ServerProof(client.value, nonce)| == 32;
    }
  }
}
