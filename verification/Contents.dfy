/**
 What the submitted text says, read back by someone who has only the text, the
 payload and the literal names of their members: which payload member each UBL
 field carries, and every constant of the document.
 */
module Contents {
  import opened Wrappers
  import opened Json
  import opened JsonParser
  import opened Ubl
  import opened Recovery
  import opened CanonicalForm
  import Text

  /** The string member of a payload, or `default` when it is absent, not a string,
      or the payload no object. */
  function StringOr(pos: Json, key: string, default: string): string {
    if pos.Obj? && key in pos.members && pos.members[key].Str? then pos.members[key].s else default
  }

  /** The unsigned document of crates/domain/src/ubl.rs, written out. */
  function UnsignedText(id: string, date: string, time: string, currency: string): Json {
    Obj(map[
      "_D" := Str("urn:oasis:names:specification:ubl:schema:xsd:Invoice-2"),
      "_A" := Str("urn:oasis:names:specification:ubl:schema:xsd:CommonAggregateComponents-2"),
      "_B" := Str("urn:oasis:names:specification:ubl:schema:xsd:CommonBasicComponents-2"),
      "Invoice" := Arr([Obj(map[
        "ID" := Arr([Obj(map["_" := Str(id)])]),
        "IssueDate" := Arr([Obj(map["_" := Str(date)])]),
        "IssueTime" := Arr([Obj(map["_" := Str(time)])]),
        "InvoiceTypeCode" := Arr([Obj(map["_" := Str("01"), "listVersionID" := Str("1.0")])]),
        "DocumentCurrencyCode" := Arr([Obj(map["_" := Str(currency)])]),
        "TaxCurrencyCode" := Arr([Obj(map["_" := Str(currency)])])])])])
  }

  /** The `UBLExtensions` member, written out. */
  function ExtensionsText(signature: string, digest: string, cert: string, time: string): Json {
    Arr([Obj(map["UBLExtension" := Arr([Obj(map[
      "ExtensionURI" := Arr([Obj(map["_" := Str("urn:oasis:names:specification:ubl:dsig:enveloped:xades")])]),
      "ExtensionContent" := Arr([Obj(map["UBLDocumentSignatures" := Arr([Obj(map["SignatureInformation" := Arr([Obj(map[
        "ID" := Arr([Obj(map["_" := Str("signature1")])]),
        "Signature" := Arr([Obj(map[
          "SignatureValue" := Arr([Obj(map["_" := Str(signature)])]),
          "KeyInfo" := Arr([Obj(map["X509Data" := Arr([Obj(map[
            "X509Certificate" := Arr([Obj(map["_" := Str(cert)])])])])])]),
          "Object" := Arr([Obj(map["QualifyingProperties" := Arr([Obj(map[
            "SignedProperties" := Arr([Obj(map["SignedSignatureProperties" := Arr([Obj(map[
              "SigningTime" := Arr([Obj(map["_" := Str(time)])]),
              "SigningCertificate" := Arr([Obj(map["Cert" := Arr([Obj(map["CertDigest" := Arr([Obj(map[
                "DigestValue" := Arr([Obj(map["_" := Str(digest)])]),
                "DigestMethod" := Arr([Obj(map[
                  "_" := Str(""),
                  "Algorithm" := Str(
                    "http://www.w3.org/2001/04/xmlenc#sha256")])])])])])])])])])])])])])])])])])])])])])])])])])])])])
  }

  /** The signed document, written out over the unsigned one. */
  function SignedText(id: string, date: string, time: string, currency: string, extensions: Json): Json {
    Obj(map[
      "_D" := Str("urn:oasis:names:specification:ubl:schema:xsd:Invoice-2"),
      "_A" := Str("urn:oasis:names:specification:ubl:schema:xsd:CommonAggregateComponents-2"),
      "_B" := Str("urn:oasis:names:specification:ubl:schema:xsd:CommonBasicComponents-2"),
      "Invoice" := Arr([Obj(map[
        "ID" := Arr([Obj(map["_" := Str(id)])]),
        "IssueDate" := Arr([Obj(map["_" := Str(date)])]),
        "IssueTime" := Arr([Obj(map["_" := Str(time)])]),
        "InvoiceTypeCode" := Arr([Obj(map["_" := Str("01"), "listVersionID" := Str("1.0")])]),
        "DocumentCurrencyCode" := Arr([Obj(map["_" := Str(currency)])]),
        "TaxCurrencyCode" := Arr([Obj(map["_" := Str(currency)])]),
        "UBLExtensions" := extensions,
        "Signature" := Arr([Obj(map["ID" := Arr([Obj(map["_" := Str("signature1")])])])])])])])
  }

  lemma ExtensionsWritten(signature: string, digest: string, cert: string, time: string)
    ensures Extensions(signature, digest, cert, time) == ExtensionsText(signature, digest, cert, time)
  {
  }

  lemma UnsignedWritten(pos: Json, code: string)
    ensures UnsignedInvoice(pos, code)
         == UnsignedText(code, StringOr(pos, "issue_date", ""), StringOr(pos, "issue_time", ""),
                         StringOr(pos, "currency", "MYR"))
  {
  }

  lemma SignedWritten(pos: Json, code: string, extensions: Json)
    ensures SignedInvoice(pos, code, extensions)
         == SignedText(code, StringOr(pos, "issue_date", ""), StringOr(pos, "issue_time", ""),
                       StringOr(pos, "currency", "MYR"), extensions)
  {
  }

  /** Embedding sets two members of `Invoice[0]` and touches nothing else; it fails
      without an `Invoice` array, or without an object at its head. */
  lemma EmbeddingSays(doc: Json, extensions: Json, reference: Json)
    ensures var r := Embed(doc, extensions, reference);
            if !(doc.Obj? && "Invoice" in doc.members && doc.members["Invoice"].Arr?) then
              r == Failure(MissingInvoiceArray)
            else
              var items := doc.members["Invoice"].items;
              if items == [] || !items[0].Obj? then r == Failure(EmptyInvoiceArray)
              else
                var invoice := items[0].members["UBLExtensions" := extensions]["Signature" := reference];
                r == Success(Obj(doc.members["Invoice" := Arr([Obj(invoice)] + items[1..])]))
  {
  }

  // ----- Every payload that builds -------------------------------------------

  /** The body has a string under `key` that is not blank. */
  predicate HasText(body: Json, key: string) {
    body.Obj? && key in body.members && body.members[key].Str? && Text.Trim(body.members[key].s) != ""
  }

  predicate HasReference(pos: Json) {
    HasText(pos, "invoice_ref")
  }

  /** Both texts of a built document, read back, are the payload's own members in
      the places their names say, the signature, certificate, digest and time
      where XAdES wants them, and constants; and nothing else. */
  lemma SubmittedTextSays(pos: Json, signer: Signer, at: int)
    ensures match BuildSignedDocument(pos, signer, at)
            case Success(d) =>
              && HasReference(pos) && signer.timeText(at).Some?
              && var id := Text.Trim(pos.members["invoice_ref"].s);
                 var date, time := StringOr(pos, "issue_date", ""), StringOr(pos, "issue_time", "");
                 var currency := StringOr(pos, "currency", "MYR");
                 && d.codeNumber == id
                 && d.signature == signer.sign(d.signedPayload)
                 && d.documentHash == signer.hash(d.canonicalText)
                 && ParseDocument(d.signedPayload) == Some(UnsignedText(id, date, time, currency))
                 && ParseDocument(d.canonicalText)
                    == Some(SignedText(id, date, time, currency,
                                       ExtensionsText(d.signature, signer.certDigest, signer.certB64,
                                                      signer.timeText(at).value)))
            case Failure(e) => e == if HasReference(pos) then SigningTime else MissingInvoiceRef
  {
    BuildResult(pos, signer, at);
    if CodeNumber(pos).Some? && signer.timeText(at).Some? { BuiltTextSays(pos, signer, at); }
  }

  lemma BuiltTextSays(pos: Json, signer: Signer, at: int)
    requires CodeNumber(pos).Some? && signer.timeText(at).Some?
    ensures var code, t, r := CodeNumber(pos).value, signer.timeText(at).value, BuildSignedDocument(pos, signer, at);
            var date, time := StringOr(pos, "issue_date", ""), StringOr(pos, "issue_time", "");
            var currency := StringOr(pos, "currency", "MYR");
            && r.Success?
            && ParseDocument(r.value.signedPayload) == Some(UnsignedText(code, date, time, currency))
            && ParseDocument(r.value.canonicalText)
               == Some(SignedText(code, date, time, currency,
                                  ExtensionsText(r.value.signature, signer.certDigest, signer.certB64, t)))
  {
    BuildResult(pos, signer, at);
    var code, t := CodeNumber(pos).value, signer.timeText(at).value;
    var d := BuildSignedDocument(pos, signer, at).value;
    UnsignedNumberFree(pos, code);
    PrintThenParse(UnsignedInvoice(pos, code), CANONICAL_ORDER);
    UnsignedWritten(pos, code);
    ExtensionsNumberFree(d.signature, signer.certDigest, signer.certB64, t);
    SubmittedTextReadsBack(pos, code, ExtensionsFor(pos, code, signer, t));
    SignedWritten(pos, code, ExtensionsFor(pos, code, signer, t));
    ExtensionsWritten(d.signature, signer.certDigest, signer.certB64, t);
  }

  // ----- One field at a time -------------------------------------------------

  /** `Invoice[0].<key>[0]._`, if the document has it. */
  function Entry(doc: Json, key: string): Option<string> {
    match At(Arr([doc]), ["Invoice", key, "_"])
    case Some(Str(text)) => Some(text)
    case _ => None
  }

  lemma EntryAt(top: map<string, Json>, invoice: map<string, Json>, key: string, text: string)
    requires "Invoice" in top && top["Invoice"] == Arr([Obj(invoice)])
    requires key in invoice && invoice[key] == Arr([Obj(map["_" := Str(text)])])
    ensures Entry(Obj(top), key) == Some(text)
  {
    AtMember(map["_" := Str(text)], "_", []);
    AtMember(invoice, key, ["_"]);
    AtMember(top, "Invoice", [key] + ["_"]);
    assert ["_"] + [] == ["_"] && ["Invoice"] + ([key] + ["_"]) == ["Invoice", key, "_"];
  }

  lemma EntriesOfSigned(id: string, date: string, time: string, currency: string, extensions: Json)
    ensures var doc := SignedText(id, date, time, currency, extensions);
            && Entry(doc, "ID") == Some(id) && Entry(doc, "IssueDate") == Some(date)
            && Entry(doc, "IssueTime") == Some(time)
            && Entry(doc, "DocumentCurrencyCode") == Some(currency) && Entry(doc, "TaxCurrencyCode") == Some(currency)
  {
    var top := SignedText(id, date, time, currency, extensions).members;
    var invoice := top["Invoice"].items[0].members;
    EntryAt(top, invoice, "ID", id);
    EntryAt(top, invoice, "IssueDate", date);
    EntryAt(top, invoice, "IssueTime", time);
    EntryAt(top, invoice, "DocumentCurrencyCode", currency);
    EntryAt(top, invoice, "TaxCurrencyCode", currency);
  }

  /** What a reader of the submitted text finds under each name. */
  lemma FieldsReadBack(pos: Json, signer: Signer, at: int)
    ensures match BuildSignedDocument(pos, signer, at)
            case Failure(_) => !HasReference(pos) || signer.timeText(at) == None
            case Success(d) =>
              var text := ParseDocument(d.canonicalText);
              && text.Some? && HasReference(pos)
              && Entry(text.value, "ID") == Some(Text.Trim(pos.members["invoice_ref"].s))
              && Entry(text.value, "IssueDate") == Some(StringOr(pos, "issue_date", ""))
              && Entry(text.value, "IssueTime") == Some(StringOr(pos, "issue_time", ""))
              && Entry(text.value, "DocumentCurrencyCode") == Some(StringOr(pos, "currency", "MYR"))
              && Entry(text.value, "TaxCurrencyCode") == Some(StringOr(pos, "currency", "MYR"))
  {
    BuildResult(pos, signer, at);
    if CodeNumber(pos).Some? && signer.timeText(at).Some? {
      BuiltTextSays(pos, signer, at);
      var d := BuildSignedDocument(pos, signer, at).value;
      EntriesOfSigned(Text.Trim(pos.members["invoice_ref"].s), StringOr(pos, "issue_date", ""),
                      StringOr(pos, "issue_time", ""), StringOr(pos, "currency", "MYR"),
                      ExtensionsText(d.signature, signer.certDigest, signer.certB64, signer.timeText(at).value));
    }
  }
}
