/**
 * Registration check of chaincode containers (package `accesscontrol`). The
 * first message a container sends must be a REGISTER message whose claimed
 * chaincode name matches the name the certificate registry holds for the
 * container's TLS certificate, unless access control is switched off.
 *
 * Decoding the payload (`proto.Unmarshal` into a `ChaincodeID`), extracting the
 * certificate hash from the stream context, and the registry's `lookup` are
 * not part of this model: `Authenticate` receives the decoder and the lookup as
 * functions and the extracted hash as bytes.
 */
module AccessControl {
  import opened Common

  /** The type of a chaincode message; types other than REGISTER are kept by name only. */
  datatype MessageType = REGISTER | OtherType(name: string)

  datatype ChaincodeMessage = ChaincodeMessage(Type: MessageType, Payload: seq<bv8>)

  /** Why a registration is refused; each carries what the source's error text reports. */
  datatype AuthError =
    | NotRegisterMessage
    | UnmarshalFailed
    | MissingCertificate(ccName: string)
    | UnknownCertificate(ccName: string, hash: seq<bv8>)
    | WrongChaincode(ccName: string, hash: seq<bv8>)

  /** The outcome of `authenticate`: a nil error, or an error. */
  datatype AuthResult = Accepted | Rejected(error: AuthError)

  class Authenticator {
    /** access control is switched off */
    var bypass: bool

    /** NewAuthenticator: access control starts enforced. */
    constructor ()
      ensures !bypass
    {
      bypass := false;
    }

    /** Switches access control off; calling it again changes nothing. */
    method DisableAccessCheck()
      modifies this`bypass
      ensures bypass
    {
      bypass := true;
    }

    /**
     * The registration check of one message. `unmarshal(payload)` is the
     * decoded chaincode name, or None when decoding fails; `hash` is the
     * certificate hash of the stream; `lookup(hash)` is the registered name,
     * "" when the hash is unknown.
     */
    function Authenticate(msg: ChaincodeMessage, hash: seq<bv8>,
                          unmarshal: seq<bv8> -> Option<string>,
                          lookup: seq<bv8> -> string): (r: AuthResult)
      reads this
      ensures bypass ==> r == Accepted
      ensures !bypass ==>
                (r == Accepted <==>
                   && msg.Type == REGISTER
                   && unmarshal(msg.Payload).Some?
                   && |hash| > 0
                   && lookup(hash) != ""
                   && lookup(hash) == unmarshal(msg.Payload).value)
      ensures !bypass && r == Accepted ==> unmarshal(msg.Payload).value != ""
    {
      if bypass then Accepted
      else if msg.Type != REGISTER then Rejected(NotRegisterMessage)
      else match unmarshal(msg.Payload)
        case None => Rejected(UnmarshalFailed)
        case Some(ccName) =>
          if |hash| == 0 then Rejected(MissingCertificate(ccName))
          else
            var registeredName := lookup(hash);
            if registeredName == "" then Rejected(UnknownCertificate(ccName, hash))
            else if registeredName != ccName then Rejected(WrongChaincode(ccName, hash))
            else Accepted
    }
  }

  /** A message that is not REGISTER is refused before its payload is decoded or the registry consulted. */
  lemma NonRegisterRejectedFirst(ac: Authenticator, msg: ChaincodeMessage, hash: seq<bv8>,
                                 unmarshal: seq<bv8> -> Option<string>, lookup: seq<bv8> -> string,
                                 hash': seq<bv8>, unmarshal': seq<bv8> -> Option<string>,
                                 lookup': seq<bv8> -> string)
    requires !ac.bypass && msg.Type != REGISTER
    ensures ac.Authenticate(msg, hash, unmarshal, lookup) == Rejected(NotRegisterMessage)
    ensures ac.Authenticate(msg, hash', unmarshal', lookup') == Rejected(NotRegisterMessage)
  {
  }

  /**
   * The rejections of a decoded REGISTER message, in the source's order: an
   * empty certificate hash, a hash the registry does not know, and a hash
   * registered to a different chaincode.
   */
  lemma RegisterRejections(ac: Authenticator, msg: ChaincodeMessage, hash: seq<bv8>,
                           unmarshal: seq<bv8> -> Option<string>, lookup: seq<bv8> -> string)
    requires !ac.bypass && msg.Type == REGISTER
    ensures unmarshal(msg.Payload).None? ==>
              ac.Authenticate(msg, hash, unmarshal, lookup) == Rejected(UnmarshalFailed)
    ensures unmarshal(msg.Payload).Some? ==>
              var ccName := unmarshal(msg.Payload).value;
              var r := ac.Authenticate(msg, hash, unmarshal, lookup);
              (|hash| == 0 ==> r == Rejected(MissingCertificate(ccName)))
              && (|hash| > 0 && lookup(hash) == "" ==> r == Rejected(UnknownCertificate(ccName, hash)))
              && (|hash| > 0 && lookup(hash) != "" && lookup(hash) != ccName ==>
                    r == Rejected(WrongChaincode(ccName, hash)))
  {
  }
}
