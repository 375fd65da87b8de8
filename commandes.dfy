/** The order records ("commandes") held by the remote order store. */
module Commandes {
  import opened Wrappers

  /** A backend-assigned record identifier; an empty one is falsy and counts as missing. */
  type Id = s: string | |s| > 0 witness "1"

  /**
   * One row of the `commandes` table as the application reads it. `montant` and
   * `photo_url` may be null; `created_at` is set by the backend.
   */
  datatype Commande = Commande(
    id: Option<Id>,
    numeroClient: string,
    montant: Option<real>,
    photoUrl: Option<string>,
    createdAt: int)

  /** `cmd.photo_url` is truthy: present and not the empty string. */
  predicate HasPhoto(c: Commande) {
    c.photoUrl.Some? && c.photoUrl.value != ""
  }
}
