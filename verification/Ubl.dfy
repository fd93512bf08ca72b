/**
 The two-stage signed document of crates/domain/src/ubl.rs: build the unsigned
 invoice, canonicalise, sign, embed the signature, canonicalise again.

 RSA, SHA-256, base64 and the certificate come from outside: a `Signer` carries
 them as functions and texts. Canonical bytes are represented by the text whose
 UTF-8 encoding they are.
 */
module Ubl {
  import opened Wrappers
  import opened Json
  import Text

  datatype DomainError = MissingInvoiceRef | SigningTime | MissingInvoiceArray | EmptyInvoiceArray

  datatype SignedDocument = SignedDocument(
    canonicalText: string,
    documentHash: string,
    codeNumber: string,
    signature: string,
    signedPayload: string)

  datatype Signer = Signer(
    sign: string -> string,               // base64(RSA-SHA256(text))
    hash: string -> string,               // base64(SHA-256(text))
    certB64: string,
    certDigest: string,
    timeText: int -> Option<string>)      // RFC 3339 text of a unix time, if it has one

  /** `get(key).as_str().map(trim).filter(non-empty)`, as both the API and the
      document builder read a required text. */
  function RequiredText(body: Json, key: string): Option<string> {
    match body.GetStr(key)
    case Some(text) => if Text.Trim(text) != [] then Some(Text.Trim(text)) else None
    case None => None
  }

  function CodeNumber(pos: Json): Option<string> {
    RequiredText(pos, "invoice_ref")
  }

  /** `[{"_": text}]`, the shape of every UBL leaf. */
  function Leaf(text: string): Json {
    Arr([Obj(map["_" := Str(text)])])
  }

  /** `[{key: v}]`, the shape of every UBL aggregate with one member. */
  function Wrap(key: string, v: Json): Json {
    Arr([Obj(map[key := v])])
  }

  function InvoiceFields(code: string, date: string, time: string, currency: string): map<string, Json> {
    map["ID" := Leaf(code),
        "IssueDate" := Leaf(date),
        "IssueTime" := Leaf(time),
        "InvoiceTypeCode" := Arr([Obj(map["_" := Str("01"), "listVersionID" := Str("1.0")])]),
        "DocumentCurrencyCode" := Leaf(currency),
        "TaxCurrencyCode" := Leaf(currency)]
  }

  function Envelope(invoice: map<string, Json>): Json {
    Obj(map["_D" := Str("urn:oasis:names:specification:ubl:schema:xsd:Invoice-2"),
            "_A" := Str("urn:oasis:names:specification:ubl:schema:xsd:CommonAggregateComponents-2"),
            "_B" := Str("urn:oasis:names:specification:ubl:schema:xsd:CommonBasicComponents-2"),
            "Invoice" := Arr([Obj(invoice)])])
  }

  function IssueDate(pos: Json): string { pos.GetStr("issue_date").GetOr("") }

  function IssueTime(pos: Json): string { pos.GetStr("issue_time").GetOr("") }

  function Currency(pos: Json): string { pos.GetStr("currency").GetOr("MYR") }

  /** `build_unsigned_invoice`. */
  function UnsignedInvoice(pos: Json, code: string): Json {
    Envelope(InvoiceFields(code, IssueDate(pos), IssueTime(pos), Currency(pos)))
  }

  const SHA256_URI := "http://www.w3.org/2001/04/xmlenc#sha256"

  function SigningProperties(certDigest: string, signingTime: string): Json {
    Wrap("QualifyingProperties",
      Wrap("SignedProperties",
        Wrap("SignedSignatureProperties",
          Arr([Obj(map["SigningTime" := Leaf(signingTime),
                       "SigningCertificate" :=
                         Wrap("Cert",
                           Wrap("CertDigest",
                             Arr([Obj(map["DigestValue" := Leaf(certDigest),
                                          "DigestMethod" :=
                                            Arr([Obj(map["_" := Str(""),
                                                         "Algorithm" := Str(SHA256_URI)])])])])))])]))))
  }

  function SignatureBlock(signature: string, certDigest: string, cert: string, signingTime: string): Json {
    Arr([Obj(map["SignatureValue" := Leaf(signature),
                 "KeyInfo" := Wrap("X509Data", Wrap("X509Certificate", Leaf(cert))),
                 "Object" := SigningProperties(certDigest, signingTime)])])
  }

  function SignatureInformation(block: Json): Json {
    Arr([Obj(map["ID" := Leaf("signature1"), "Signature" := block])])
  }

  /** The `UBLExtensions` member. */
  function Extensions(signature: string, certDigest: string, cert: string, signingTime: string): Json {
    Wrap("UBLExtension",
      Arr([Obj(map["ExtensionURI" := Leaf("urn:oasis:names:specification:ubl:dsig:enveloped:xades"),
                   "ExtensionContent" :=
                     Wrap("UBLDocumentSignatures",
                       Wrap("SignatureInformation",
                         SignatureInformation(SignatureBlock(signature, certDigest, cert, signingTime))))])]))
  }

  /** The top-level `Signature` member. */
  function SignatureReference(): Json {
    Wrap("ID", Leaf("signature1"))
  }

  const EXTENSIONS_KEY := "UBLExtensions"
  const SIGNATURE_KEY := "Signature"

  /** The document with `invoice` in place of `Invoice[0]`. */
  function WithInvoice(doc: Json, invoice: map<string, Json>): Json
    requires doc.Obj? && "Invoice" in doc.members
    requires doc.members["Invoice"].Arr? && doc.members["Invoice"].items != []
  {
    Obj(doc.members["Invoice" := Arr([Obj(invoice)] + doc.members["Invoice"].items[1..])])
  }

  function Embed(doc: Json, extensions: Json, reference: Json): Result<Json, DomainError> {
    match doc.Get("Invoice")
    case Some(Arr(items)) =>
      if items != [] && items[0].Obj?
      then Success(WithInvoice(doc, items[0].members[EXTENSIONS_KEY := extensions][SIGNATURE_KEY := reference]))
      else Failure(EmptyInvoiceArray)
    case _ => Failure(MissingInvoiceArray)
  }

  /** `embed_signature`, which inserts the two members in place. */
  method EmbedSignature(doc0: Json, signature: string, certDigest: string, cert: string, signingTime: string)
    returns (r: Result<Json, DomainError>)
    ensures r == Embed(doc0, Extensions(signature, certDigest, cert, signingTime), SignatureReference())
    ensures r.Success? ==> Strip(r.value) == Strip(doc0)
  {
    var doc := doc0;
    var extensions := Extensions(signature, certDigest, cert, signingTime);
    var found := doc.Get("Invoice");
    if found.None? || !found.value.Arr? { return Failure(MissingInvoiceArray); }
    var items := found.value.items;
    if items == [] || !items[0].Obj? { return Failure(EmptyInvoiceArray); }
    var invoice := items[0].members;
    invoice := invoice[EXTENSIONS_KEY := extensions];
    invoice := invoice[SIGNATURE_KEY := SignatureReference()];
    doc := WithInvoice(doc, invoice);
    StripUndoesEmbed(doc0, extensions, SignatureReference());
    return Success(doc);
  }

  /** What an auditor removes to get back the document that was signed. */
  function Strip(doc: Json): Json {
    match doc.Get("Invoice")
    case Some(Arr(items)) =>
      if items != [] && items[0].Obj?
      then WithInvoice(doc, items[0].members - {EXTENSIONS_KEY, SIGNATURE_KEY})
      else doc
    case _ => doc
  }

  ghost function BuildSignedDocument(pos: Json, signer: Signer, signingTime: int): Result<SignedDocument, DomainError> {
    match CodeNumber(pos)
    case None => Failure(MissingInvoiceRef)
    case Some(code) =>
      var unsigned := UnsignedInvoice(pos, code);
      var signedPayload := Canonicalize(unsigned);
      var signature := signer.sign(signedPayload);
      match signer.timeText(signingTime)
      case None => Failure(SigningTime)
      case Some(timeText) =>
        match Embed(unsigned, Extensions(signature, signer.certDigest, signer.certB64, timeText), SignatureReference())
        case Failure(e) => Failure(e)
        case Success(signed) =>
          var text := Canonicalize(signed);
          Success(SignedDocument(text, signer.hash(text), code, signature, signedPayload))
  }

  // ----- Stripping undoes embedding ------------------------------------------

  lemma StripUndoesEmbed(doc: Json, extensions: Json, reference: Json)
    requires Embed(doc, extensions, reference).Success?
    ensures Strip(Embed(doc, extensions, reference).value) == Strip(doc)
  {
    var items := doc.members["Invoice"].items;
    var invoice := items[0].members;
    var signed := invoice[EXTENSIONS_KEY := extensions][SIGNATURE_KEY := reference];
    assert signed - {EXTENSIONS_KEY, SIGNATURE_KEY} == invoice - {EXTENSIONS_KEY, SIGNATURE_KEY};
    var embedded := WithInvoice(doc, signed);
    assert embedded.members["Invoice"].items[1..] == items[1..];
    assert WithInvoice(embedded, invoice - {EXTENSIONS_KEY, SIGNATURE_KEY}).members
        == WithInvoice(doc, invoice - {EXTENSIONS_KEY, SIGNATURE_KEY}).members;
  }
}
