/** The role gate put in front of the HTML views: `perfil_required(*perfis)` and its three
    specialisations. The flash message it posts is not modelled. */
module Decorators {
  import opened Models
  import opened Permissions

  /** What the wrapped view answers: a redirect to the login page, a redirect to the dashboard,
      or the wrapped view's own response. */
  datatype Resposta<R> = RedirecionaLogin | RedirecionaDashboard | Resultado(value: R)

  /** `perfil_required(*permitidos)(view)(request, args)`. `login_required` sends an anonymous
      user to the login page first; a role outside `permitidos` goes to the dashboard; otherwise
      the view runs on the same arguments. */
  function PerfilRequired<A, R>(permitidos: set<Perfil>, view: A -> R, user: Principal, args: A): (r: Resposta<R>)
    ensures r.RedirecionaLogin? <==> !user.Autenticado?
    ensures r.RedirecionaDashboard? <==> user.Autenticado? && user.perfil !in permitidos
    ensures r.Resultado? <==> TemPerfil(user, permitidos)
    ensures r.Resultado? ==> r.value == view(args)
  {
    if !user.Autenticado? then RedirecionaLogin
    else if user.perfil !in permitidos then RedirecionaDashboard
    else Resultado(view(args))
  }

  function AdminRequired<A, R>(view: A -> R, user: Principal, args: A): Resposta<R> {
    PerfilRequired({Admin}, view, user, args)
  }

  function OrganizadorOrAdminRequired<A, R>(view: A -> R, user: Principal, args: A): Resposta<R> {
    PerfilRequired({Admin, Organizador}, view, user, args)
  }

  function AlunoProfessorRequired<A, R>(view: A -> R, user: Principal, args: A): Resposta<R> {
    PerfilRequired({Aluno, Professor}, view, user, args)
  }

  /** `admin_required` runs the view exactly for admins. */
  lemma AdminRequiredAdmits<A, R>(view: A -> R, user: Principal, args: A)
    ensures AdminRequired(view, user, args).Resultado? <==> IsAdmin(user)
    ensures AdminRequired(view, user, args).Resultado? ==> AdminRequired(view, user, args).value == view(args)
  {
  }

  /** `organizador_or_admin_required` runs the view exactly for organizers and admins. */
  lemma OrganizadorOrAdminRequiredAdmits<A, R>(view: A -> R, user: Principal, args: A)
    ensures OrganizadorOrAdminRequired(view, user, args).Resultado? <==> IsOrganizadorOrAdmin(user)
  {
  }

  /** `aluno_professor_required` runs the view exactly for students and professors. */
  lemma AlunoProfessorRequiredAdmits<A, R>(view: A -> R, user: Principal, args: A)
    ensures AlunoProfessorRequired(view, user, args).Resultado? <==> IsAlunoOrProfessor(user)
  {
  }
}
