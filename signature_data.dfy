/** The controller's `signatures` state in the shapes it takes: the empty
    object, the agreement screen's payload stored as it is, or the
    single-signer payload wrapped as `{ participant: payload }`. */
module SignatureData {
  import opened AgreementScreen
  import opened SignatureScreen

  datatype Stored =
    | NoSignatures
    | FromAgreement(agreement: AgreementPayload)
    | FromSignature(participant: SinglePayload)
}
