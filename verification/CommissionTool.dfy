/**
 * The commissioning client as it runs: one global key selection, switched for
 * every rung and put back on every exit.
 */
module CommissionTool {
  import opened Bytes
  import opened Aead
  import opened SecureOdServer
  import opened SecureProto
  import opened SecureClient
  import C = Commissioning
  import opened DeviceModel
  import opened TokenCommissioning

  class Tool {
    const config: Config
    const client: Client<App>
    var sessionKeys: map<byte, Key>
    var keyId: byte
    var useEncryption: bool

    ghost function Ring(): KeyRing
      reads this
    {
      KeyRing(sessionKeys, keyId, useEncryption)
    }

    constructor (config: Config, client: Client<App>, ring: KeyRing)
      ensures Ring() == ring && this.config == config && this.client == client
    {
      this.config, this.client := config, client;
      sessionKeys, keyId, useEncryption := ring.keys, ring.selected, ring.encrypt;
    }

    method SetKeyId(id: byte)
      modifies `keyId
      ensures Ring() == old(Ring()).(selected := id)
    {
      keyId := id;
    }

    /** Stores a session key under the selected id. */
    method SetSession(key: Key) returns (ok: bool)
      modifies `sessionKeys
      ensures ok <==> 1 <= keyId <= KEYID_MAX
      ensures Ring() == if ok then old(Ring()).(keys := old(sessionKeys)[keyId := key]) else old(Ring())
    {
      if keyId == 0 || keyId > KEYID_MAX {
        return false;
      }
      sessionKeys := sessionKeys[keyId := key];
      return true;
    }

    method RunSecureWrite(server: Server<App>, who: Who, body: seq<byte>, s: Shot) returns (exit: nat)
      requires server.Valid()
      modifies server
      ensures server.Valid()
      ensures var w := WriteFlow(server.port, old(server.Model()), CallOf(who, Ring()), body, s.random, s.e1, s.e2);
              server.Model() == w.sod && exit == ExitCode(w.status)
    {
      hide WriteFlow;
      var status, base := client.SecureWrite(server, CallOf(who, KeyRing(sessionKeys, keyId, useEncryption)), body,
                                             s.random, s.e1, s.e2);
      exit := ExitCode(status);
    }

    method InstallKeyRung(server: Server<App>, who: Who, slot: byte, auth: byte, s: Shot) returns (code: nat)
      requires server.Valid() && server.port == PortOf(config)
      modifies this, server
      ensures server.Valid()
      ensures var r := InstallRung(config, old(server.Model()), old(Ring()), who, slot, auth, s);
              server.Model() == r.sod && Ring() == r.ring && code == r.code
    {
      hide WriteFlow, CallOf;
      SetKeyId(slot);
      if !(1 <= keyId <= KEYID_MAX && keyId in sessionKeys) {
        return KEY_MISSING;
      }
      var body := RungBody(slot, sessionKeys[keyId]);
      SetKeyId(auth);
      if !(1 <= keyId <= KEYID_MAX && keyId in sessionKeys) {
        return AUTH_MISSING;
      }
      code := RunSecureWrite(server, who, body, s);
    }

    method InstallProvisioningByToken(server: Server<App>, who: Who, token: Key, s: Shot) returns (code: nat)
      requires server.Valid() && server.port == PortOf(config)
      modifies this, server
      ensures server.Valid()
      ensures var r := InstallByToken(config, old(server.Model()), old(Ring()), who, token, s);
              server.Model() == r.sod && Ring() == r.ring && code == r.code
    {
      hide InstallRung;
      var saved := keyId;
      SetKeyId(C.SLOT_CLAIM_TOKEN);
      var ok := SetSession(token);
      code := InstallKeyRung(server, who, C.SLOT_PROVISIONING, C.SLOT_CLAIM_TOKEN, s);
      SetKeyId(saved);
    }

    method InstallUpperRungs(server: Server<App>, who: Who, s2: Shot, s3: Shot) returns (code: nat)
      requires server.Valid() && server.port == PortOf(config)
      modifies this, server
      ensures server.Valid()
      ensures var r := InstallLadder(config, old(server.Model()), old(Ring()), who, s2, s3);
              server.Model() == r.sod && Ring() == r.ring && code == r.code
    {
      hide InstallRung;
      var saved := keyId;
      code := InstallKeyRung(server, who, C.SLOT_INTEGRATOR, C.SLOT_PROVISIONING, s2);
      if code == 0 {
        code := InstallKeyRung(server, who, C.SLOT_OPERATOR, C.SLOT_INTEGRATOR, s3);
      }
      SetKeyId(saved);
    }
  }
}
