/** The REST API's permission classes: class-level checks of the requesting principal
    (`has_permission`) and object-level checks against the row being accessed
    (`has_object_permission`). Each is a pure decision over the role and the ownership relation. */
module Permissions {
  import opened Models

  /** `request.user`: the anonymous user, or an authenticated user with its key and role. A user
      row always carries a `perfil`, so `hasattr(request.user, 'perfil')` holds exactly for
      authenticated principals. */
  datatype Principal = Anonimo | Autenticado(id: UserId, perfil: Perfil)

  /** `request.user and request.user.is_authenticated and hasattr(request.user, 'perfil') and
      request.user.perfil in roles`, the shape shared by the role classes. */
  predicate TemPerfil(p: Principal, roles: set<Perfil>) {
    p.Autenticado? && p.perfil in roles
  }

  /** `request.user and request.user.is_authenticated`. */
  predicate Autenticado(p: Principal) {
    p.Autenticado?
  }

  predicate IsAluno(p: Principal) { TemPerfil(p, {Aluno}) }
  predicate IsProfessor(p: Principal) { TemPerfil(p, {Professor}) }
  predicate IsOrganizador(p: Principal) { TemPerfil(p, {Organizador}) }
  predicate IsAdmin(p: Principal) { TemPerfil(p, {Admin}) }
  predicate IsAlunoOrProfessor(p: Principal) { TemPerfil(p, {Aluno, Professor}) }
  predicate IsOrganizadorOrAdmin(p: Principal) { TemPerfil(p, {Organizador, Admin}) }

  predicate CanManageEventsHasPermission(p: Principal) { TemPerfil(p, {Organizador, Admin}) }
  predicate CanRegisterForEventsHasPermission(p: Principal) { TemPerfil(p, {Aluno, Professor}) }
  predicate CanManageInscricoesHasPermission(p: Principal) { TemPerfil(p, {Organizador, Admin}) }
  predicate CanViewOwnInscricoesHasPermission(p: Principal) { Autenticado(p) }
  predicate CanCancelInscricaoHasPermission(p: Principal) { Autenticado(p) }
  predicate CanViewCertificadosHasPermission(p: Principal) { Autenticado(p) }

  /** `CanManageEvents.has_object_permission` for the event organized by `organizador`. */
  predicate CanManageEventsHasObjectPermission(uid: UserId, perfil: Perfil, organizador: UserId) {
    if perfil == Admin then true
    else if perfil == Organizador then organizador == uid
    else false
  }

  /** `CanViewOwnInscricoes.has_object_permission` for the registration of `participante`. */
  predicate CanViewOwnInscricoesHasObjectPermission(uid: UserId, participante: UserId) {
    participante == uid
  }

  /** `CanCancelInscricao.has_object_permission` for a registration of `participante` on an event
      organized by `organizador`. */
  predicate CanCancelInscricaoHasObjectPermission(uid: UserId, perfil: Perfil, participante: UserId, organizador: UserId) {
    if participante == uid then true
    else if perfil == Admin then true
    else if perfil == Organizador then organizador == uid
    else false
  }

  /** `CanViewCertificados.has_object_permission` for a certificate whose registration belongs to
      `participante` on an event organized by `organizador`. */
  predicate CanViewCertificadosHasObjectPermission(uid: UserId, perfil: Perfil, participante: UserId, organizador: UserId) {
    if participante == uid then true
    else if perfil == Admin then true
    else if perfil == Organizador then organizador == uid
    else false
  }

  /** Every class-level check refuses the anonymous user. */
  lemma HasPermissionDeniesAnonimo()
    ensures !IsAluno(Anonimo) && !IsProfessor(Anonimo) && !IsOrganizador(Anonimo) && !IsAdmin(Anonimo)
    ensures !IsAlunoOrProfessor(Anonimo) && !IsOrganizadorOrAdmin(Anonimo)
    ensures !CanManageEventsHasPermission(Anonimo) && !CanRegisterForEventsHasPermission(Anonimo)
    ensures !CanManageInscricoesHasPermission(Anonimo) && !CanViewOwnInscricoesHasPermission(Anonimo)
    ensures !CanCancelInscricaoHasPermission(Anonimo) && !CanViewCertificadosHasPermission(Anonimo)
  {
  }

  /** The single-role classes are mutually exclusive. */
  lemma SingleRolesExclusive(p: Principal)
    ensures !(IsAluno(p) && IsProfessor(p)) && !(IsAluno(p) && IsOrganizador(p)) && !(IsAluno(p) && IsAdmin(p))
    ensures !(IsProfessor(p) && IsOrganizador(p)) && !(IsProfessor(p) && IsAdmin(p))
    ensures !(IsOrganizador(p) && IsAdmin(p))
  {
  }

  /** The three managing classes admit the same principals: the authenticated organizers and
      admins. */
  lemma ManagingClassesAgree(p: Principal)
    ensures IsOrganizadorOrAdmin(p) <==> p.Autenticado? && (p.perfil == Organizador || p.perfil == Admin)
    ensures CanManageEventsHasPermission(p) <==> IsOrganizadorOrAdmin(p)
    ensures CanManageInscricoesHasPermission(p) <==> IsOrganizadorOrAdmin(p)
    ensures IsOrganizadorOrAdmin(p) <==> IsOrganizador(p) || IsAdmin(p)
  {
  }

  /** Registering for events is for students and professors only. */
  lemma CanRegisterForEventsSpec(p: Principal)
    ensures CanRegisterForEventsHasPermission(p) <==> IsAluno(p) || IsProfessor(p)
    ensures p.Autenticado? && p.perfil in {Organizador, Admin, Visitante} ==> !CanRegisterForEventsHasPermission(p)
  {
  }

  /** Managing an event: an admin always, an organizer only an event they organize, nobody else. */
  lemma CanManageEventsObjectSpec(uid: UserId, perfil: Perfil, organizador: UserId)
    ensures CanManageEventsHasObjectPermission(uid, perfil, organizador)
            <==> perfil == Admin || (perfil == Organizador && organizador == uid)
  {
  }

  /** Cancelling a registration: its own participant whatever the role, an admin, or the
      organizer of its event. */
  lemma CanCancelInscricaoObjectSpec(uid: UserId, perfil: Perfil, participante: UserId, organizador: UserId)
    ensures CanCancelInscricaoHasObjectPermission(uid, perfil, participante, organizador)
            <==> participante == uid || perfil == Admin || (perfil == Organizador && organizador == uid)
  {
  }

  /** Viewing a certificate follows the cancel rule, through the certificate's registration. */
  lemma CanViewCertificadosLikeCancel(uid: UserId, perfil: Perfil, participante: UserId, organizador: UserId)
    ensures CanViewCertificadosHasObjectPermission(uid, perfil, participante, organizador)
            <==> CanCancelInscricaoHasObjectPermission(uid, perfil, participante, organizador)
  {
  }

  /** Viewing one's registrations has no admin override. */
  lemma CanViewOwnInscricoesNoOverride(uid: UserId, participante: UserId)
    ensures CanViewOwnInscricoesHasObjectPermission(uid, participante) <==> participante == uid
  {
  }
}
