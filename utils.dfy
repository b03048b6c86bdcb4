/** The chain and account identifiers of src/provider-keeper-mobile/utils.ts:
    a chain id is "waves:" followed by the network code, and an account
    "waves:<code>:<public key>" belongs to the chain when its first two
    ':'-separated fields are "waves" and the network code. */
module Utils {
  import opened JsStrings

  /** The code units of "waves", the chain namespace. */
  const WAVES: JsString := [0x77, 0x61, 0x76, 0x65, 0x73]

  /** `String.fromCharCode(networkByte)`: the one code unit whose code is the
      network byte reduced modulo 2^16 (JavaScript's ToUint16). */
  function NetworkCode(networkByte: int): (code: JsString)
    ensures |code| == 1
    ensures 0 <= networkByte < 0x1_0000 ==> code == [networkByte]
  {
    [networkByte % 0x1_0000]
  }

  /** `chainId(networkByte)`: "waves:" and the network code. */
  function ChainId(networkByte: int): (id: JsString)
    ensures |id| == 7
    ensures id[..6] == WAVES + [COLON]
    ensures id[6..] == NetworkCode(networkByte)
  {
    WAVES + [COLON] + NetworkCode(networkByte)
  }

  /** The closure `sameChainAccount(networkByte)` returns: it splits the
      account on ':' and accepts it when the first field is "waves" and the
      second one, which is absent when there is no ':', is the network code. */
  predicate AccountFieldsMatch(networkByte: int, account: JsString)
  {
    var fields := Split(account, COLON);
    fields[0] == WAVES && |fields| >= 2 && fields[1] == NetworkCode(networkByte)
  }

  /** `sameChainAccount(networkByte)`: the predicate over accounts; it accepts
      exactly the accounts of the chain as IsChainAccount states them. */
  function SameChainAccount(networkByte: int): (accepts: JsString -> bool)
    ensures forall account :: accepts(account) <==> IsChainAccount(networkByte, account)
  {
    assert forall account :: AccountFieldsMatch(networkByte, account) <==> IsChainAccount(networkByte, account) by {
      forall account: JsString
        ensures AccountFieldsMatch(networkByte, account) <==> IsChainAccount(networkByte, account)
      {
        if AccountFieldsMatch(networkByte, account) {
          AcceptedIsChainAccount(networkByte, account);
        }
        if IsChainAccount(networkByte, account) {
          ChainAccountAccepted(networkByte, account);
        }
      }
    }
    account => AccountFieldsMatch(networkByte, account)
  }

  /** The accounts of a chain, stated on the characters alone: "waves:" and a
      network code other than ':', then either nothing or ':' and anything. */
  ghost predicate IsChainAccount(networkByte: int, account: JsString)
  {
    var c := NetworkCode(networkByte)[0];
    && c != COLON
    && (|| account == WAVES + [COLON, c]
        || (|account| >= 8 && account[..8] == WAVES + [COLON, c, COLON]))
  }

  /** Two network bytes give the same network code exactly when they agree
      modulo 2^16. */
  lemma NetworkCodeSame(networkByte1: int, networkByte2: int)
    ensures NetworkCode(networkByte1) == NetworkCode(networkByte2)
            <==> networkByte1 % 0x1_0000 == networkByte2 % 0x1_0000
  {
  }

  /** What the split-and-compare test accepts is an account of the chain. */
  lemma AcceptedIsChainAccount(networkByte: int, account: JsString)
    requires AccountFieldsMatch(networkByte, account)
    ensures IsChainAccount(networkByte, account)
  {
    var c := NetworkCode(networkByte)[0];
    var fields := Split(account, COLON);
    assert |fields| >= 2 && fields[0] == WAVES && fields[1] == [c];
    assert c != COLON by { assert c in fields[1]; }
    assert account == WAVES + [COLON] + Join(fields[1..], COLON);
    if |fields| == 2 {
      assert account == WAVES + [COLON, c];
    } else {
      assert fields[1..][1..] == fields[2..];
      var rest := Join(fields[2..], COLON);
      assert account == WAVES + [COLON, c, COLON] + rest;
    }
  }

  /** Every account of the chain passes the split-and-compare test. */
  lemma ChainAccountAccepted(networkByte: int, account: JsString)
    requires IsChainAccount(networkByte, account)
    ensures AccountFieldsMatch(networkByte, account)
  {
    var c := NetworkCode(networkByte)[0];
    assert NetworkCode(networkByte) == [c];
    if account == WAVES + [COLON, c] {
      assert account == WAVES + [COLON] + [c];
      SplitAtFirst(WAVES, [c], COLON);
      SplitNoSeparator([c], COLON);
    } else {
      var rest := account[8..];
      assert account == WAVES + [COLON] + ([c] + [COLON] + rest);
      SplitAtFirst(WAVES, [c] + [COLON] + rest, COLON);
      SplitAtFirst([c], rest, COLON);
    }
  }

  /** Round trip: a chain id belongs to its own chain, unless the network code
      is ':' itself. */
  lemma ChainIdRoundTrip(networkByte: int)
    requires NetworkCode(networkByte) != [COLON]
    ensures SameChainAccount(networkByte)(ChainId(networkByte))
  {
  }

  /** The network byte 58 (':') makes chainId "waves::", which splits into
      "waves", "" and "", so sameChainAccount(58) accepts nothing, its own
      chain id included. */
  lemma ColonNetworkAcceptsNothing(networkByte: int, account: JsString)
    requires NetworkCode(networkByte) == [COLON]
    ensures ChainId(networkByte) == WAVES + [COLON, COLON]
    ensures !SameChainAccount(networkByte)(account)
  {
  }

  /** "waves:<code>:<pk>" is accepted whatever the public key holds, further
      ':' included: only the first two fields are inspected. */
  lemma AcceptsAnyPublicKey(networkByte: int, publicKey: JsString)
    requires NetworkCode(networkByte) != [COLON]
    ensures SameChainAccount(networkByte)(ChainId(networkByte) + [COLON] + publicKey)
  {
  }

  /** An account that does not start with "waves:" is rejected: its first
      field is not "waves", or it has no second field. */
  lemma RejectsForeignNamespace(networkByte: int, account: JsString)
    requires !(|account| >= 6 && account[..6] == WAVES + [COLON])
    ensures !SameChainAccount(networkByte)(account)
  {
  }

  /** An account without any ':' is rejected. */
  lemma RejectsWithoutSeparator(networkByte: int, account: JsString)
    requires COLON !in account
    ensures !SameChainAccount(networkByte)(account)
  {
  }

  /** An account whose second field is empty ("waves:" or "waves::…") is
      rejected. */
  lemma RejectsEmptyNetworkField(networkByte: int, rest: JsString)
    requires rest == [] || rest[0] == COLON
    ensures !SameChainAccount(networkByte)(WAVES + [COLON] + rest)
  {
    var account := WAVES + [COLON] + rest;
    if rest != [] {
      assert account[6] == COLON;
    }
  }

  /** An account whose second field has two or more units is rejected. */
  lemma RejectsLongNetworkField(networkByte: int, field: JsString, rest: JsString)
    requires |field| >= 2 && COLON !in field
    requires rest == [] || rest[0] == COLON
    ensures !SameChainAccount(networkByte)(WAVES + [COLON] + field + rest)
  {
    var account := WAVES + [COLON] + field + rest;
    assert account[7] == field[1] && field[1] in field;
  }

  /** Injectivity: distinct network bytes (as 16-bit codes) have distinct chain
      ids, and neither chain accepts the other's id. */
  lemma ChainIdInjective(networkByte1: int, networkByte2: int)
    requires 0 <= networkByte1 < 0x1_0000 && 0 <= networkByte2 < 0x1_0000
    requires networkByte1 != networkByte2
    ensures ChainId(networkByte1) != ChainId(networkByte2)
    ensures !SameChainAccount(networkByte2)(ChainId(networkByte1))
  {
  }
}
