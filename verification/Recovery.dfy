/**
 What a holder of a signed document's text can recover from it: the exact text
 the signature was computed over, and the signature itself.
 */
module Recovery {
  import opened Wrappers
  import opened Json
  import opened JsonParser
  import opened CanonicalForm
  import opened Ubl

  // ----- Documents contain no numbers ----------------------------------------

  lemma LeafNumberFree(text: string)
    ensures NumberFree(Leaf(text))
  {
    assert NumberFree(Obj(map["_" := Str(text)]));
  }

  lemma WrapNumberFree(key: string, v: Json)
    requires NumberFree(v)
    ensures NumberFree(Wrap(key, v))
  {
    assert NumberFree(Obj(map[key := v]));
  }

  lemma PairNumberFree(k1: string, v1: Json, k2: string, v2: Json)
    requires NumberFree(v1) && NumberFree(v2)
    ensures NumberFree(Arr([Obj(map[k1 := v1, k2 := v2])]))
  {
    assert NumberFree(Obj(map[k1 := v1, k2 := v2]));
  }

  lemma EnvelopeNumberFree(invoice: map<string, Json>)
    requires forall k :: k in invoice ==> NumberFree(invoice[k])
    ensures NumberFree(Envelope(invoice))
  {
    assert NumberFree(Obj(invoice));
    assert NumberFree(Arr([Obj(invoice)]));
  }

  lemma FieldsNumberFree(code: string, date: string, time: string, currency: string)
    ensures forall k | k in InvoiceFields(code, date, time, currency) ::
              NumberFree(InvoiceFields(code, date, time, currency)[k])
  {
    LeafNumberFree(code);
    LeafNumberFree(date);
    LeafNumberFree(time);
    LeafNumberFree(currency);
    PairNumberFree("_", Str("01"), "listVersionID", Str("1.0"));
  }

  lemma PropertiesNumberFree(certDigest: string, signingTime: string)
    ensures NumberFree(SigningProperties(certDigest, signingTime))
  {
    LeafNumberFree(certDigest);
    LeafNumberFree(signingTime);
    PairNumberFree("_", Str(""), "Algorithm", Str("http://www.w3.org/2001/04/xmlenc#sha256"));
    var digestMethod := Arr([Obj(map["_" := Str(""), "Algorithm" := Str("http://www.w3.org/2001/04/xmlenc#sha256")])]);
    PairNumberFree("DigestValue", Leaf(certDigest), "DigestMethod", digestMethod);
    var digest := Arr([Obj(map["DigestValue" := Leaf(certDigest), "DigestMethod" := digestMethod])]);
    WrapNumberFree("CertDigest", digest);
    WrapNumberFree("Cert", Wrap("CertDigest", digest));
    var certificate := Wrap("Cert", Wrap("CertDigest", digest));
    PairNumberFree("SigningTime", Leaf(signingTime), "SigningCertificate", certificate);
    var inner := Arr([Obj(map["SigningTime" := Leaf(signingTime), "SigningCertificate" := certificate])]);
    WrapNumberFree("SignedSignatureProperties", inner);
    WrapNumberFree("SignedProperties", Wrap("SignedSignatureProperties", inner));
    WrapNumberFree("QualifyingProperties", Wrap("SignedProperties", Wrap("SignedSignatureProperties", inner)));
  }

  lemma BlockNumberFree(signature: string, certDigest: string, cert: string, signingTime: string)
    ensures NumberFree(SignatureBlock(signature, certDigest, cert, signingTime))
  {
    LeafNumberFree(signature);
    LeafNumberFree(cert);
    WrapNumberFree("X509Certificate", Leaf(cert));
    WrapNumberFree("X509Data", Wrap("X509Certificate", Leaf(cert)));
    PropertiesNumberFree(certDigest, signingTime);
    assert NumberFree(Obj(SignatureBlock(signature, certDigest, cert, signingTime).items[0].members));
  }

  lemma ExtensionsNumberFree(signature: string, certDigest: string, cert: string, signingTime: string)
    ensures NumberFree(Extensions(signature, certDigest, cert, signingTime))
  {
    var block := SignatureBlock(signature, certDigest, cert, signingTime);
    BlockNumberFree(signature, certDigest, cert, signingTime);
    LeafNumberFree("signature1");
    PairNumberFree("ID", Leaf("signature1"), "Signature", block);
    var information := SignatureInformation(block);
    WrapNumberFree("SignatureInformation", information);
    var signatures := Wrap("UBLDocumentSignatures", Wrap("SignatureInformation", information));
    WrapNumberFree("UBLDocumentSignatures", Wrap("SignatureInformation", information));
    LeafNumberFree("urn:oasis:names:specification:ubl:dsig:enveloped:xades");
    var uri := Leaf("urn:oasis:names:specification:ubl:dsig:enveloped:xades");
    PairNumberFree("ExtensionURI", uri, "ExtensionContent", signatures);
    var extension := Arr([Obj(map["ExtensionURI" := uri, "ExtensionContent" := signatures])]);
    WrapNumberFree("UBLExtension", extension);
  }

  lemma ReferenceNumberFree()
    ensures NumberFree(SignatureReference())
  {
    LeafNumberFree("signature1");
    WrapNumberFree("ID", Leaf("signature1"));
  }

  // ----- The member names never collide --------------------------------------

  lemma KeysDiffer(a: string, b: string, i: nat)
    requires i < |a| && i < |b| && a[i] != b[i]
    ensures a != b
  {
  }

  lemma FieldLookup(code: string, date: string, time: string, currency: string)
    ensures var f := InvoiceFields(code, date, time, currency);
            && "ID" in f && f["ID"] == Leaf(code)
            && "IssueDate" in f && f["IssueDate"] == Leaf(date)
            && "IssueTime" in f && f["IssueTime"] == Leaf(time)
            && "DocumentCurrencyCode" in f && f["DocumentCurrencyCode"] == Leaf(currency)
            && EXTENSIONS_KEY !in f && SIGNATURE_KEY !in f
  {
    KeysDiffer("IssueDate", "IssueTime", 5);
    KeysDiffer("IssueDate", SIGNATURE_KEY, 0);
    KeysDiffer("IssueTime", SIGNATURE_KEY, 0);
    assert |"ID"| == 2 && |"InvoiceTypeCode"| == 15 && |"DocumentCurrencyCode"| == 20;
    assert |"TaxCurrencyCode"| == 15 && |EXTENSIONS_KEY| == 13 && |SIGNATURE_KEY| == 9 && |"IssueDate"| == 9;
    KeysDiffer("InvoiceTypeCode", "TaxCurrencyCode", 0);
  }

  lemma LeafInjective(a: string, b: string)
    requires Leaf(a) == Leaf(b)
    ensures a == b
  {
    var x, y := Leaf(a).items[0], Leaf(b).items[0];
    assert x.members["_"] == y.members["_"];
  }

  lemma EnvelopeInvoice(invoice: map<string, Json>)
    ensures Envelope(invoice).Get("Invoice") == Some(Arr([Obj(invoice)]))
  {
    assert |"Invoice"| == 7 && |"_D"| == |"_A"| == |"_B"| == 2;
  }

  // ----- The signed payload is recoverable -----------------------------------

  /** What an auditor does with the submitted text: read it, delete the two
      signature members of `Invoice[0]`, canonicalise. */
  ghost function RecoverSignedPayload(text: string): Option<string> {
    match ParseDocument(text)
    case Some(doc) => Some(Canonicalize(Strip(doc)))
    case None => None
  }

  /** The document that is canonicalised last, before it becomes text. */
  ghost function SignedInvoice(pos: Json, code: string, extensions: Json): Json {
    Envelope(InvoiceFields(code, IssueDate(pos), IssueTime(pos), Currency(pos))
             [EXTENSIONS_KEY := extensions][SIGNATURE_KEY := SignatureReference()])
  }

  lemma EmbedIntoUnsigned(pos: Json, code: string, extensions: Json)
    ensures Embed(UnsignedInvoice(pos, code), extensions, SignatureReference())
         == Success(SignedInvoice(pos, code, extensions))
  {
    var fields := InvoiceFields(code, IssueDate(pos), IssueTime(pos), Currency(pos));
    EnvelopeInvoice(fields);
    var doc := UnsignedInvoice(pos, code);
    var signed := fields[EXTENSIONS_KEY := extensions][SIGNATURE_KEY := SignatureReference()];
    assert [Obj(signed)] + doc.members["Invoice"].items[1..] == [Obj(signed)];
    assert doc.members["Invoice" := Arr([Obj(signed)])] == Envelope(signed).members;
  }

  lemma UnsignedHasNoSignature(pos: Json, code: string)
    ensures Strip(UnsignedInvoice(pos, code)) == UnsignedInvoice(pos, code)
  {
    var fields := InvoiceFields(code, IssueDate(pos), IssueTime(pos), Currency(pos));
    FieldLookup(code, IssueDate(pos), IssueTime(pos), Currency(pos));
    EnvelopeInvoice(fields);
    var doc := UnsignedInvoice(pos, code);
    assert fields - {EXTENSIONS_KEY, SIGNATURE_KEY} == fields;
    assert [Obj(fields)] + doc.members["Invoice"].items[1..] == [Obj(fields)];
    assert doc.members["Invoice" := Arr([Obj(fields)])] == doc.members;
  }

  lemma UnsignedNumberFree(pos: Json, code: string)
    ensures NumberFree(UnsignedInvoice(pos, code))
  {
    FieldsNumberFree(code, IssueDate(pos), IssueTime(pos), Currency(pos));
    EnvelopeNumberFree(InvoiceFields(code, IssueDate(pos), IssueTime(pos), Currency(pos)));
  }

  lemma SignedNumberFree(pos: Json, code: string, extensions: Json)
    requires NumberFree(extensions)
    ensures NumberFree(SignedInvoice(pos, code, extensions))
  {
    var fields := InvoiceFields(code, IssueDate(pos), IssueTime(pos), Currency(pos));
    FieldsNumberFree(code, IssueDate(pos), IssueTime(pos), Currency(pos));
    ReferenceNumberFree();
    EnvelopeNumberFree(fields[EXTENSIONS_KEY := extensions][SIGNATURE_KEY := SignatureReference()]);
  }

  ghost function ExtensionsFor(pos: Json, code: string, signer: Signer, timeText: string): Json {
    Extensions(signer.sign(Canonicalize(UnsignedInvoice(pos, code))), signer.certDigest, signer.certB64, timeText)
  }

  /** Exactly when a payload builds, and what the pieces of the result are. */
  lemma BuildResult(pos: Json, signer: Signer, at: int)
    ensures var r := BuildSignedDocument(pos, signer, at);
            match CodeNumber(pos)
            case None => r == Failure(MissingInvoiceRef)
            case Some(code) =>
              match signer.timeText(at)
              case None => r == Failure(SigningTime)
              case Some(t) =>
                && r.Success?
                && r.value.codeNumber == code
                && r.value.signedPayload == Canonicalize(UnsignedInvoice(pos, code))
                && r.value.signature == signer.sign(r.value.signedPayload)
                && r.value.canonicalText == Canonicalize(SignedInvoice(pos, code, ExtensionsFor(pos, code, signer, t)))
                && r.value.documentHash == signer.hash(r.value.canonicalText)
  {
    if CodeNumber(pos).Some? && signer.timeText(at).Some? {
      var code, t := CodeNumber(pos).value, signer.timeText(at).value;
      EmbedIntoUnsigned(pos, code, ExtensionsFor(pos, code, signer, t));
    }
  }

  /** The text reads back as the signed document, and that minus its signature
      members is the unsigned one. */
  lemma SubmittedTextReadsBack(pos: Json, code: string, extensions: Json)
    requires NumberFree(extensions)
    ensures ParseDocument(Canonicalize(SignedInvoice(pos, code, extensions)))
         == Some(SignedInvoice(pos, code, extensions))
    ensures Strip(SignedInvoice(pos, code, extensions)) == UnsignedInvoice(pos, code)
  {
    SignedNumberFree(pos, code, extensions);
    PrintThenParse(SignedInvoice(pos, code, extensions), CANONICAL_ORDER);
    EmbedIntoUnsigned(pos, code, extensions);
    StripUndoesEmbed(UnsignedInvoice(pos, code), extensions, SignatureReference());
    UnsignedHasNoSignature(pos, code);
  }

  /** For every payload that builds, the text sent to LHDN yields back exactly
      the text that was signed. */
  lemma SignedPayloadIsRecoverable(pos: Json, signer: Signer, at: int)
    ensures match BuildSignedDocument(pos, signer, at)
            case Success(d) => RecoverSignedPayload(d.canonicalText) == Some(d.signedPayload)
            case Failure(_) => CodeNumber(pos) == None || signer.timeText(at) == None
  {
    BuildResult(pos, signer, at);
    if CodeNumber(pos).Some? && signer.timeText(at).Some? { RecoverableWhenBuilt(pos, signer, at); }
  }

  lemma RecoverableWhenBuilt(pos: Json, signer: Signer, at: int)
    requires CodeNumber(pos).Some? && signer.timeText(at).Some?
    ensures var r := BuildSignedDocument(pos, signer, at);
            r.Success? && RecoverSignedPayload(r.value.canonicalText) == Some(r.value.signedPayload)
  {
    BuildResult(pos, signer, at);
    var code, t := CodeNumber(pos).value, signer.timeText(at).value;
    ExtensionsNumberFree(signer.sign(Canonicalize(UnsignedInvoice(pos, code))), signer.certDigest, signer.certB64, t);
    SubmittedTextReadsBack(pos, code, ExtensionsFor(pos, code, signer, t));
  }

  /** The signed text determines the trimmed reference, the dates and the
      currency after defaulting, and is determined by them. */
  lemma SignedPayloadDeterminesInvoice(p: Json, q: Json, code: string, other: string)
    ensures Canonicalize(UnsignedInvoice(p, code)) == Canonicalize(UnsignedInvoice(q, other))
       <==> code == other && IssueDate(p) == IssueDate(q) && IssueTime(p) == IssueTime(q) && Currency(p) == Currency(q)
  {
    UnsignedNumberFree(p, code);
    UnsignedNumberFree(q, other);
    CanonicalFormIsUnique(UnsignedInvoice(p, code), UnsignedInvoice(q, other));
    if UnsignedInvoice(p, code) == UnsignedInvoice(q, other) {
      SameInvoiceSameFields(p, q, code, other);
    }
  }

  lemma SameInvoiceSameFields(p: Json, q: Json, code: string, other: string)
    requires UnsignedInvoice(p, code) == UnsignedInvoice(q, other)
    ensures code == other && IssueDate(p) == IssueDate(q) && IssueTime(p) == IssueTime(q) && Currency(p) == Currency(q)
  {
    var f := InvoiceFields(code, IssueDate(p), IssueTime(p), Currency(p));
    var g := InvoiceFields(other, IssueDate(q), IssueTime(q), Currency(q));
    EnvelopeInvoice(f);
    EnvelopeInvoice(g);
    assert [Obj(f)][0] == [Obj(g)][0];
    FieldLookup(code, IssueDate(p), IssueTime(p), Currency(p));
    FieldLookup(other, IssueDate(q), IssueTime(q), Currency(q));
    LeafInjective(code, other);
    LeafInjective(IssueDate(p), IssueDate(q));
    LeafInjective(IssueTime(p), IssueTime(q));
    LeafInjective(Currency(p), Currency(q));
  }

  // ----- The embedded signature is over the recovered text -------------------

  /** The value at a path of member names, taking element 0 of every array. */
  function At(v: Json, path: seq<string>): Option<Json>
    decreases |path|
  {
    if path == [] then Some(v)
    else if v.Arr? && v.items != [] && v.items[0].Obj? && path[0] in v.items[0].members
    then At(v.items[0].members[path[0]], path[1..])
    else None
  }

  const SIGNATURE_PATH: seq<string> :=
    ["UBLExtension", "ExtensionContent", "UBLDocumentSignatures", "SignatureInformation",
     "Signature", "SignatureValue", "_"]

  lemma AtMember(members: map<string, Json>, key: string, path: seq<string>)
    requires key in members
    ensures At(Arr([Obj(members)]), [key] + path) == At(members[key], path)
  {
    assert ([key] + path)[1..] == path;
  }

  lemma SignatureAtPath(signature: string, certDigest: string, cert: string, signingTime: string)
    ensures At(Extensions(signature, certDigest, cert, signingTime), SIGNATURE_PATH) == Some(Str(signature))
  {
    var block := SignatureBlock(signature, certDigest, cert, signingTime);
    var information := SignatureInformation(block);
    var inner := Wrap("SignatureInformation", information);
    var content := Wrap("UBLDocumentSignatures", inner);
    var extensions := Extensions(signature, certDigest, cert, signingTime);
    var extension := extensions.items[0].members["UBLExtension"];
    assert |"SignatureValue"| == 14 && |"KeyInfo"| == 7 && |"Object"| == 6;
    assert |"ExtensionURI"| == 12 && |"ExtensionContent"| == 16;
    AtMember(map["_" := Str(signature)], "_", []);
    assert ["_"] + [] == ["_"];
    AtMember(block.items[0].members, "SignatureValue", ["_"]);
    AtMember(information.items[0].members, "Signature", ["SignatureValue"] + ["_"]);
    AtMember(inner.items[0].members, "SignatureInformation", ["Signature"] + (["SignatureValue"] + ["_"]));
    var p3 := ["SignatureInformation"] + (["Signature"] + (["SignatureValue"] + ["_"]));
    AtMember(content.items[0].members, "UBLDocumentSignatures", p3);
    AtMember(extension.items[0].members, "ExtensionContent", ["UBLDocumentSignatures"] + p3);
    var p1 := ["ExtensionContent"] + (["UBLDocumentSignatures"] + p3);
    AtMember(extensions.items[0].members, "UBLExtension", p1);
    assert ["UBLExtension"] + p1 == SIGNATURE_PATH;
  }

  /** The signature value a reader finds inside the submitted text. */
  function EmbeddedSignature(text: string): Option<string> {
    match ParseDocument(text)
    case None => None
    case Some(doc) =>
      match doc.Get("Invoice")
      case None => None
      case Some(invoice) =>
        match At(invoice, [EXTENSIONS_KEY] + SIGNATURE_PATH)
        case Some(Str(signature)) => Some(signature)
        case _ => None
  }

  /** A text that carries its own evidence: the signature inside it is the
      signature of the text recovered from it. */
  ghost predicate SelfVerifying(text: string, signer: Signer) {
    && RecoverSignedPayload(text).Some?
    && EmbeddedSignature(text) == Some(signer.sign(RecoverSignedPayload(text).value))
  }

  lemma SignatureInDocument(fields: map<string, Json>, extensions: Json, signature: string)
    requires At(extensions, SIGNATURE_PATH) == Some(Str(signature))
    ensures var signed := fields[EXTENSIONS_KEY := extensions][SIGNATURE_KEY := SignatureReference()];
            At(Arr([Obj(signed)]), [EXTENSIONS_KEY] + SIGNATURE_PATH) == Some(Str(signature))
  {
    assert |EXTENSIONS_KEY| == 13 && |SIGNATURE_KEY| == 9;
    AtMember(fields[EXTENSIONS_KEY := extensions][SIGNATURE_KEY := SignatureReference()],
             EXTENSIONS_KEY, SIGNATURE_PATH);
  }

  /** Every document that is built at all carries its own evidence. */
  lemma SignedDocumentVerifiesItself(pos: Json, signer: Signer, at: int)
    ensures match BuildSignedDocument(pos, signer, at)
            case Success(d) => SelfVerifying(d.canonicalText, signer)
            case Failure(_) => CodeNumber(pos) == None || signer.timeText(at) == None
  {
    BuildResult(pos, signer, at);
    if CodeNumber(pos).Some? && signer.timeText(at).Some? { VerifiesWhenBuilt(pos, signer, at); }
  }

  lemma VerifiesWhenBuilt(pos: Json, signer: Signer, at: int)
    requires CodeNumber(pos).Some? && signer.timeText(at).Some?
    ensures BuildSignedDocument(pos, signer, at).Success?
    ensures SelfVerifying(BuildSignedDocument(pos, signer, at).value.canonicalText, signer)
  {
    BuildResult(pos, signer, at);
    var d := BuildSignedDocument(pos, signer, at).value;
    var code, t := CodeNumber(pos).value, signer.timeText(at).value;
    var extensions := ExtensionsFor(pos, code, signer, t);
    ExtensionsNumberFree(d.signature, signer.certDigest, signer.certB64, t);
    SubmittedTextReadsBack(pos, code, extensions);
    SignedPayloadIsRecoverable(pos, signer, at);
    var fields := InvoiceFields(code, IssueDate(pos), IssueTime(pos), Currency(pos));
    var signed := fields[EXTENSIONS_KEY := extensions][SIGNATURE_KEY := SignatureReference()];
    EnvelopeInvoice(signed);
    SignatureAtPath(d.signature, signer.certDigest, signer.certB64, t);
    SignatureInDocument(fields, extensions, d.signature);
  }
}
