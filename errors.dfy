/**
 * The messages shown when a remote call fails. The error text the database
 * client returns is inspected with `includes`, and a fixed chain of tests
 * decides which explanation the user sees: the first test that matches wins.
 */
module ErrorMessages {
  import opened Text

  /** What an error message is recognised as. */
  datatype ErrorKind = InvalidApiKey | MissingTable | PermissionDenied | Unrecognised

  predicate MentionsJwt(msg: string) {
    Contains(msg, "JWT")
  }

  predicate MentionsMissingTable(msg: string) {
    Contains(msg, "relation") || Contains(msg, "does not exist")
  }

  predicate MentionsPermission(msg: string) {
    Contains(msg, "permission") || Contains(msg, "policy")
  }

  /**
   * The chain of the connection test: 'JWT', then 'relation' or 'does not
   * exist', then 'permission' or 'policy'. A kind is chosen only when no
   * earlier test matched.
   */
  function ClassifyConnectionError(msg: string): (k: ErrorKind)
    ensures k == InvalidApiKey <==> MentionsJwt(msg)
    ensures k == MissingTable <==> !MentionsJwt(msg) && MentionsMissingTable(msg)
    ensures k == PermissionDenied <==> !MentionsJwt(msg) && !MentionsMissingTable(msg) && MentionsPermission(msg)
    ensures k == Unrecognised <==> !MentionsJwt(msg) && !MentionsMissingTable(msg) && !MentionsPermission(msg)
  {
    if MentionsJwt(msg) then InvalidApiKey
    else if MentionsMissingTable(msg) then MissingTable
    else if MentionsPermission(msg) then PermissionDenied
    else Unrecognised
  }

  /** The chain of the order loads, whose first test also accepts 'Invalid API key'. */
  function ClassifyLoadError(msg: string): (k: ErrorKind)
    ensures k == InvalidApiKey <==> MentionsJwt(msg) || Contains(msg, "Invalid API key")
    ensures k == MissingTable <==>
              !(MentionsJwt(msg) || Contains(msg, "Invalid API key")) && MentionsMissingTable(msg)
    ensures k == PermissionDenied <==>
              !(MentionsJwt(msg) || Contains(msg, "Invalid API key")) && !MentionsMissingTable(msg)
              && MentionsPermission(msg)
    ensures k == Unrecognised <==>
              !(MentionsJwt(msg) || Contains(msg, "Invalid API key")) && !MentionsMissingTable(msg)
              && !MentionsPermission(msg)
  {
    if MentionsJwt(msg) || Contains(msg, "Invalid API key") then InvalidApiKey
    else if MentionsMissingTable(msg) then MissingTable
    else if MentionsPermission(msg) then PermissionDenied
    else Unrecognised
  }

  /** The two chains differ only on messages that say 'Invalid API key'. */
  lemma LoadChainExtendsConnectionChain(msg: string)
    ensures ClassifyLoadError(msg) ==
      if Contains(msg, "Invalid API key") then InvalidApiKey else ClassifyConnectionError(msg)
  {
  }

  const ConnectionFailed := "❌ Erreur de connexion à la base de données."

  /** The sentence the connection test appends for a recognised kind. */
  function ConnectionHint(k: ErrorKind): string {
    match k
    case InvalidApiKey => " Clé API invalide."
    case MissingTable => " Table \"commandes\" introuvable. Exécutez le script SQL de configuration."
    case PermissionDenied => " Problème de permissions. Vérifiez les politiques RLS."
    case Unrecognised => ""
  }

  /**
   * The status line of a failed connection test. An empty message stands for a
   * missing one and adds nothing; an unrecognised message is appended verbatim.
   */
  function ConnectionErrorText(msg: string): (t: string)
    ensures IsPrefix(ConnectionFailed, t)
    ensures msg == [] ==> t == ConnectionFailed
    ensures msg != [] && ClassifyConnectionError(msg) != Unrecognised ==>
              t == ConnectionFailed + ConnectionHint(ClassifyConnectionError(msg))
    ensures msg != [] && ClassifyConnectionError(msg) == Unrecognised ==>
              t[|ConnectionFailed|..] == " " + msg
  {
    if msg == [] then ConnectionFailed
    else
      var k := ClassifyConnectionError(msg);
      if k == Unrecognised then ConnectionFailed + " " + msg else ConnectionFailed + ConnectionHint(k)
  }

  const LoadFailed := "Erreur lors du chargement des commandes."

  /** The text a failed order load shows for each kind; an unrecognised error keeps the generic text. */
  function LoadHint(k: ErrorKind): string {
    match k
    case InvalidApiKey => "❌ Clé API invalide. Vérifiez votre configuration."
    case MissingTable => "❌ Table \"commandes\" introuvable. Exécutez le script SQL de configuration."
    case PermissionDenied => "❌ Problème de permissions. Vérifiez les politiques RLS dans Supabase."
    case Unrecognised => LoadFailed
  }

  /** The message shown in place of the orders when a period or list load fails. */
  function LoadErrorText(msg: string): (t: string)
    ensures t == LoadHint(ClassifyLoadError(msg))
  {
    if msg == [] then
      assert ClassifyLoadError(msg) == Unrecognised;
      LoadFailed
    else LoadHint(ClassifyLoadError(msg))
  }

  const SearchFailed := "Erreur lors de la recherche."

  /** The message shown when the custom filter's query fails: the raw message follows the generic text. */
  function SearchErrorText(msg: string): (t: string)
    ensures msg == [] ==> t == SearchFailed
    ensures msg != [] ==> IsPrefix(SearchFailed + " ", t) && t[|SearchFailed| + 1..] == msg
  {
    if msg == [] then SearchFailed else SearchFailed + " " + msg
  }

  const DeniedOnRelation := "permission denied for relation commandes"

  lemma DeniedOnRelationHasNoJwt()
    ensures !MentionsJwt(DeniedOnRelation)
  {
    assert 'J' !in DeniedOnRelation;
    NotContainsWithoutFirst(DeniedOnRelation, "JWT");
  }

  lemma DeniedOnRelationNamesRelation()
    ensures MentionsMissingTable(DeniedOnRelation)
  {
    assert DeniedOnRelation[22..30] == "relation";
    ContainsAt(DeniedOnRelation, "relation", 22);
  }

  lemma DeniedOnRelationNamesPermission()
    ensures MentionsPermission(DeniedOnRelation)
  {
    assert DeniedOnRelation[0..10] == "permission";
    ContainsAt(DeniedOnRelation, "permission", 0);
  }

  /**
   * The order of the chain matters: PostgreSQL's "permission denied for
   * relation commandes" names a relation, so the connection test reports a
   * missing table rather than a permission problem.
   */
  lemma PermissionOnRelationReadsAsMissingTable()
    ensures ClassifyConnectionError(DeniedOnRelation) == MissingTable
    ensures MentionsPermission(DeniedOnRelation)
  {
    DeniedOnRelationHasNoJwt();
    DeniedOnRelationNamesRelation();
    DeniedOnRelationNamesPermission();
  }
}
