/**
 * The order form: the two fields are checked before anything is sent, then
 * the captured photo (if any) is uploaded and the order is inserted. The
 * upload, the public URL and the insert are remote calls and arrive here as
 * their outcomes.
 */
module OrderForm {
  import opened Wrappers
  import opened Text
  import opened NumberParse
  import opened ImageNormalizer

  /** The raw values of the client-number and amount inputs. */
  datatype FormFields = FormFields(numero: string, montant: string)

  /** Why the form was refused, in the order the checks are made. */
  datatype ValidationError = MissingNumero | MissingMontant | InvalidMontant

  function ValidationMessage(e: ValidationError): string {
    match e
    case MissingNumero => "Le numéro du client est obligatoire"
    case MissingMontant => "Le montant est obligatoire"
    case InvalidMontant => "Le montant doit être un nombre valide supérieur à 0"
  }

  /** A form the application accepts: a client number, and an amount that reads as a positive number. */
  predicate Acceptable(f: FormFields) {
    var amount := ParseFloat(Trim(f.montant));
    Trim(f.numero) != [] && Trim(f.montant) != [] && amount.Some? && amount.value > 0.0
  }

  /**
   * `validateForm`: `None` when the form may be sent, otherwise the first
   * check that failed.
   */
  function Validate(f: FormFields): (r: Option<ValidationError>)
    ensures r.None? <==> Acceptable(f)
    ensures r == Some(MissingNumero) <==> Trim(f.numero) == []
    ensures r == Some(MissingMontant) <==> Trim(f.numero) != [] && Trim(f.montant) == []
  {
    var numero := Trim(f.numero);
    var montant := Trim(f.montant);
    if numero == [] then Some(MissingNumero)
    else if montant == [] then Some(MissingMontant)
    else
      var amount := ParseFloat(montant);
      if amount.None? || amount.value <= 0.0 then Some(InvalidMontant) else None
  }

  /** The row sent to the `commandes` table. */
  datatype NewCommande = NewCommande(numeroClient: string, montant: Option<real>, photoUrl: Option<string>)

  /** What one press of the submit button did. */
  datatype Submission = Submission(
    uploadAttempted: bool,
    inserted: Option<NewCommande>,
    toast: Toast,
    formReset: bool)

  const UploadFailed := "Erreur lors de l'upload de la photo: "
  const SaveFailed := "Erreur lors de l'enregistrement: "
  const Saved := "✓ Commande enregistrée avec succès"

  /** The row built from the form: the number is trimmed, the amount parsed from the raw field. */
  function RowOf(f: FormFields, photoUrl: Option<string>): NewCommande {
    NewCommande(Trim(f.numero), ParseFloat(f.montant), photoUrl)
  }

  /**
   * `submitForm`. `photo` is the captured photo, `upload` the outcome of the
   * storage upload, `publicUrl` the URL the storage then gives for it, and
   * `insert` the outcome of the insert.
   */
  function Submit(f: FormFields, photo: Option<Blob>, upload: RemoteOutcome, publicUrl: string,
                  insert: RemoteOutcome): (s: Submission)
    ensures Validate(f).Some? ==>
              s == Submission(false, None, Toast(ValidationMessage(Validate(f).value), ErrorToast), false)
    ensures s.uploadAttempted <==> Validate(f).None? && photo.Some?
    ensures s.inserted.Some? <==> Validate(f).None? && (photo.None? || upload.Ok?)
    ensures s.inserted.Some? ==> s.inserted.value == RowOf(f, if photo.Some? then Some(publicUrl) else None)
    ensures s.formReset <==> s.toast == Toast(Saved, SuccessToast)
    ensures s.formReset <==> s.inserted.Some? && insert.Ok?
    ensures Validate(f).None? && photo.Some? && upload.Err? ==>
              s.toast == Toast(SaveFailed + UploadFailed + upload.message, ErrorToast)
    ensures s.inserted.Some? && insert.Err? ==> s.toast == Toast(SaveFailed + insert.message, ErrorToast)
  {
    match Validate(f)
    case Some(e) => Submission(false, None, Toast(ValidationMessage(e), ErrorToast), false)
    case None =>
      if photo.Some? && upload.Err? then
        Submission(true, None, Toast(SaveFailed + UploadFailed + upload.message, ErrorToast), false)
      else
        var row := RowOf(f, if photo.Some? then Some(publicUrl) else None);
        if insert.Err? then
          Submission(photo.Some?, Some(row), Toast(SaveFailed + insert.message, ErrorToast), false)
        else
          Submission(photo.Some?, Some(row), Toast(Saved, SuccessToast), true)
  }

  /**
   * Every row that reaches the insert has a non-empty trimmed client number,
   * a positive amount (parsing the raw field gives what parsing the trimmed
   * field gave during validation), and a photo URL exactly when a photo was
   * captured.
   */
  lemma InsertedRowIsValid(f: FormFields, photo: Option<Blob>, upload: RemoteOutcome, publicUrl: string,
                           insert: RemoteOutcome)
    requires Submit(f, photo, upload, publicUrl, insert).inserted.Some?
    ensures var row := Submit(f, photo, upload, publicUrl, insert).inserted.value;
      && row.numeroClient != [] && Trim(row.numeroClient) == row.numeroClient
      && row.montant.Some? && row.montant.value > 0.0
      && (row.photoUrl.None? <==> photo.None?)
  {
    ParseFloatOfTrim(f.montant);
    TrimIdempotent(f.numero);
  }
}
