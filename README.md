# gestor-eventos: enrolment and certificate rules in Dafny

This project models the rule set of the gestor-eventos Django application (an academic event
manager). It covers users with a role (`perfil`), events with a capacity, registrations
(`inscrições`) keyed by event and participant, and certificates issued for attended
registrations. The model states and proves the rules these files enforce:

- the entity validators of `api/models.py`, plus the registration and certificate rules its tests
  assert;
- the permission classes of `api/permissions.py` and the role gates of `api/decorators.py`;
- the HTML form handlers of `api/views.py`: error accumulation, `_flatten_validation_errors`, and
  the two upserts;
- the REST endpoints of `api/endpoints.py`: role-scoped querysets, self-registration, cancel,
  delete, certificate lookup, and the merged audit report;
- the batch command `emitir_certificados`, which sweeps finished events and issues the missing
  certificates;
- the field derivation and description choices of `api/audit.py`.

Layout, one module per source file:

- `wrappers.dfy` holds `Option` and `Result`.
- `text.dfy` holds `str.strip` and truncation.
- `models.dfy` holds the entities, their choices and `clean()` rules, the capacity rule and the
  certificate eligibility rule.
- `store.dfy` holds the database as a class `Database`. Its tables are maps that its methods
  reassign; each method is one ORM write (`create`, `save`, `delete`, `update_or_create`).
  `Valid()` is the store invariant: keys, foreign keys, unique codes, primary keys and capacity.
- `permissions.dfy` and `decorators.dfy` hold the pure decision functions.
- `views.dfy`, `endpoints.dfy`, `emitir_certificados.dfy` and `audit.dfy` hold the handlers. Each
  handler that changes the store is a method on `Database`, specified against the store snapshot
  before and after.

Dates and timestamps are integers. "Today" and "now" are parameters. A certificate's `codigo` is
a fresh positive number taken from a counter, standing for the UUID. The standard-library
parsers used by the forms (`int()`, `date.fromisoformat`) are passed in as a record of
functions. E-mail delivery is the set of registrations whose mail reaches its recipient.

Where the code and its documentation disagree, the model follows the code:

- sign-up accepts every role, ADMIN and VISITANTE included;
- the certificate form checks neither who organizes the event nor the validity date;
- `vagas_disponiveis` is read by `api/tests.py` but not defined in the repository. The model
  takes it as `capacidade - confirmadas` with no clamp at zero. Under the store invariant this is
  never negative (`Models.VagasNaoNegativas`), so it equals the clamped form.

## Model

| member | source | states |
|---|---|---|
| Text.StripSpec | api/views.py:71-76 | `str.strip()` yields the empty string exactly when the input is all whitespace |
| Models.ParsePerfil | api/models.py:16-21 | a posted text is read as a role only when it is that role's stored `PerfilChoices` value |
| Models.ParsePerfilValue | api/models.py:16-21 | every role round-trips: parsing its stored value gives the role back, so exactly the five `PerfilChoices` values are accepted |
| Models.ParseTipoEvento | api/models.py:63-68 | a posted text is read as an event type only when it is that type's stored `TipoEventoChoices` value |
| Models.ParseTipoEventoValue | api/models.py:63-68 | every event type round-trips through its stored value |
| Models.ParseInscricaoStatus | api/views.py:251-252 | a posted text is read as a registration status only when it is that status's stored value |
| Models.ParseInscricaoStatusValue | api/views.py:251-252 | every registration status round-trips through its stored value |
| Models.UsuarioClean | api/models.py:41-57 | `Usuario.clean` rejects a student or professor whose institution is missing or empty, and accepts every other user; it accepts exactly the users the CheckConstraint admits |
| Models.EventoClean | api/models.py:77-109 | `Evento.clean` rejects an end date before the start date (equal dates pass) before it looks at the organizer; then an unset organizer raises (the foreign key is required), an organizer who is neither ADMIN nor ORGANIZADOR is rejected, and everything else is accepted |
| Models.EventoCleanMatchesConstraints | api/models.py:92-109 | with both dates present, `clean()` accepts an event exactly when the date CheckConstraint and the organizer rule hold |
| Models.ConfirmadasAfterWrite | api/tests.py:68-92 | saving one registration changes the confirmed set of its own event only, and only by that registration |
| Models.InscricaoClean | api/tests.py:80-92 | saving a registration passes exactly when, once it is saved, its event has no more confirmed registrations than its capacity; a non-confirmed save always passes |
| Models.SaveKeepsCapacidade | api/tests.py:80-92 | every save that passes the check keeps every event within its capacity |
| Models.VagasNaoNegativas | api/tests.py:68-78 | under the capacity invariant, the free places lie between 0 and the capacity |
| Models.CapacidadeUmScenario | api/tests.py:68-92 | on a capacity-1 event there is 1 free place, then 0 after one confirmed registration; a second participant's confirmed registration is then rejected |
| Models.CertificadoClean | api/tests.py:94-117 | a certificate may be saved exactly when its registration is confirmed with attendance |
| Models.CertificadoRequerPresencaScenario | api/tests.py:94-117 | a confirmed registration without attendance is refused a certificate and, once attendance is set, is granted one |
| Store.CodigosUnicosAfterWrite | api/tests.py:111-117 | a certificate that keeps its code, or takes a code above every code in use, keeps all certificate codes distinct |
| Store.IdsUnicosAfterWrite | api/views.py:257-266 | a registration that keeps its id, or takes an id above every id in use, keeps all registration ids distinct |
| Store.InscricaoComId | api/endpoints.py:285 | lookup by primary key finds the one registration with that key, and finds none exactly when no registration has it |
| Store.InscricaoWriteConsistent | api/views.py:257-266 | rewriting a registration under its own key, or adding one under a fresh key, keeps the store invariant while capacity holds |
| Store.DeleteConsistent | api/endpoints.py:312-334 | deleting a registration together with its certificate keeps the store invariant |
| Store.Database.constructor | api/models.py:24-111 | a new store is empty and satisfies the invariant |
| Store.Database.CreateUsuario | api/views.py:99-112 | `create_user` normalises the username and e-mail, then inserts the normalised user under a fresh key exactly when the normalised username is free and the CheckConstraint holds; otherwise it fails with an integrity error and changes nothing |
| Store.Database.CreateEvento | api/views.py:197-209 | `Evento.objects.create` inserts the event under a fresh key exactly when its CheckConstraints hold and the organizer exists; otherwise integrity error and no change |
| Store.Database.CreateInscricao | api/views.py:257-262 | creating the registration for (event, participant) fails with an integrity error when that pair exists or either side is missing; otherwise it adds exactly that row with a fresh primary key, or fails the capacity check and changes nothing |
| Store.Database.UpdateInscricao | api/views.py:263-266 | `save()` after setting status and attendance runs the capacity check; on success only those two fields of that row change, and on failure nothing changes |
| Store.Database.DeleteInscricao | api/endpoints.py:312-334 | deleting a registration removes it and, by the one-to-one cascade, its certificate, and nothing else |
| Store.Database.UpsertCertificado | api/views.py:355-366 | `update_or_create` keyed by registration: a new certificate takes a fresh code; an existing one keeps its code and gets new issuer, hours, validity and notes; an ineligible registration is refused with nothing written |
| Store.Database.CreateCertificado | api/management/commands/emitir_certificados.py:29-33 | `Certificado.objects.create` adds a certificate with a fresh code for an eligible registration that has none, and otherwise fails with nothing written |
| Permissions.HasPermissionDeniesAnonimo | api/permissions.py:18-24 | every class-level check refuses the anonymous user |
| Permissions.SingleRolesExclusive | api/permissions.py:15-60 | no principal passes two of `IsAluno`, `IsProfessor`, `IsOrganizador`, `IsAdmin` |
| Permissions.ManagingClassesAgree | api/permissions.py:78-143 | `IsOrganizadorOrAdmin`, `CanManageEvents` and `CanManageInscricoes` admit exactly the authenticated organizers and admins |
| Permissions.CanRegisterForEventsSpec | api/permissions.py:121-127 | registering is granted exactly to students and professors; organizers, admins and visitors are refused |
| Permissions.CanManageEventsObjectSpec | api/permissions.py:102-111 | an admin may manage any event, an organizer exactly the ones they organize, every other role none |
| Permissions.CanCancelInscricaoObjectSpec | api/permissions.py:170-183 | a registration may be cancelled by its own participant whatever the role, by an admin, or by the organizer of its event, and by nobody else |
| Permissions.CanViewCertificadosLikeCancel | api/permissions.py:196-209 | viewing a certificate follows the cancel rule, applied through the certificate's registration |
| Permissions.CanViewOwnInscricoesNoOverride | api/permissions.py:155-157 | viewing a registration is allowed exactly to its participant; there is no admin override |
| Decorators.PerfilRequired | api/decorators.py:8-27 | an anonymous user goes to login, a role outside the set goes to the dashboard, and a role inside the set gets the view's own result for the same arguments; the three outcomes are exclusive |
| Decorators.AdminRequiredAdmits | api/decorators.py:30-32 | `admin_required` runs the view exactly for admins |
| Decorators.OrganizadorOrAdminRequiredAdmits | api/decorators.py:35-37 | `organizador_or_admin_required` runs the view exactly for organizers and admins |
| Decorators.AlunoProfessorRequiredAdmits | api/decorators.py:40-42 | `aluno_professor_required` runs the view exactly for students and professors |
| Views.Prefixados | api/views.py:25-27 | one `"field: message"` line per message of a field, in order |
| Views.StrMensagens | api/views.py:29-30 | a plain error list keeps one line per message, in order |
| Views.AchatadosLength | api/views.py:22-28 | the flattened dictionary has as many lines as the dictionary has messages |
| Views.AchatadosAt | api/views.py:22-28 | the j-th message of the i-th field sits right after all messages of the earlier fields, written `"field: message"` |
| Views.FlattenValidationErrors | api/views.py:22-31 | the nested loop yields the flattened messages, one line per message, in dictionary order |
| Views.Mensagens | api/views.py:79-94 | each recorded error becomes exactly one message, in order |
| Views.MensagensDe | api/views.py:79-97 | the messages shown are exactly the messages of the recorded errors |
| Views.FormUsuarioValidoSpec | api/views.py:79-97 | a sign-up form is valid exactly when no error applies, and a valid form yields a user that passes the model's CheckConstraint and `clean()` |
| Views.ErrosUsuarioOcorrem | api/views.py:79-93 | the ordered sign-up error list holds an error exactly when that error applies |
| Views.ErrosUsuarioSpec | api/views.py:79-95 | the ordered sign-up error list holds exactly the errors that apply, and is empty exactly when the form is valid |
| Views.ValidaCadastroUsuario | api/views.py:79-95 | the checks record, in the source's order, exactly the errors that apply: each blank required field, a missing or unknown role, a missing institution for a student or professor |
| Views.CadastroUsuario | api/views.py:96-118 | an invalid form renders the ordered error messages and creates nothing; a normalised username in use creates nothing; otherwise exactly the normalised user is added and the success message names the normalised username |
| Views.CadastroUsuarioPost | api/views.py:67-118 | the POST handler strips the posted fields and then has the whole outcome of `Views.CadastroUsuario` on them: the ordered errors of an invalid form; the duplicate refusal with nothing written when the normalised username is taken; otherwise the success message, exactly the normalised user added under the next id, and the other tables unchanged |
| Views.Converte | api/views.py:155-173 | a posted number or date is missing exactly when blank, invalid exactly when the parser rejects it, and otherwise the parsed value |
| Views.FormEventoValidoSpec | api/views.py:148-195 | the event form is valid exactly when no error applies, and a valid form never makes the organizer lookup raise |
| Views.EventoDoFormSpec | api/views.py:197-209 | the event a valid form creates has an organizer who may organize, and passes the CheckConstraints exactly when its end date is not before its start date |
| Views.Se | api/views.py:148-192 | a conditional error is present exactly when its condition holds |
| Views.ErrosEventoCamposOcorrem | api/views.py:148-173 | the checks before the organizer lookup list exactly the type, place, date and capacity errors that apply |
| Views.ErrosEventoFinaisOcorrem | api/views.py:174-192 | the checks from the organizer lookup on list exactly the organizer errors and the missing dates and capacity that apply |
| Views.ErrosEventoSpec | api/views.py:148-192 | the event form's error list holds exactly the errors that apply |
| Views.ErrosEventoVazios | api/views.py:194-195 | when the organizer lookup does not raise, the form reports no error exactly when it is valid |
| Views.ValidaCadastroEvento | api/views.py:148-192 | when the organizer lookup does not raise, the checks record, in the source's order, exactly the errors that apply: bad type, blank place, unparseable dates, non-positive or invalid capacity, missing or invalid organizer, missing dates or capacity |
| Views.CadastroEvento | api/views.py:194-215 | an invalid event form renders the ordered error messages and creates nothing; a valid one adds exactly that event |
| Views.CadastroEventoPost | api/views.py:137-215 | the POST handler reads the posted fields and then has the whole outcome of `Views.CadastroEvento` on them: the internal error, the ordered form errors, the failed insert or the new event |
| Views.LerFormInscricao | api/views.py:242-245 | the status defaults to PENDENTE; attendance is true exactly when the posted field is `"on"` |
| Views.FormInscricaoValidoSpec | api/views.py:247-252 | the registration form is valid exactly when no error applies |
| Views.ErrosInscricaoSpec | api/views.py:247-252 | the ordered registration error list holds exactly the errors that apply, and is empty exactly when the form is valid |
| Views.ValidaInscricao | api/views.py:247-252 | the checks record, in the source's order, exactly the errors that apply: no event, no participant, an unknown status |
| Views.InscricaoUsuario | api/views.py:247-277 | an invalid form renders the ordered error messages; one row per (event, participant): a new pair is created ("criada"), an existing one gets the posted status and attendance ("atualizada"); an error leaves the registrations as they were |
| Views.InscricaoUsuarioPost | api/views.py:238-277 | the POST handler reads the posted fields and then has the whole outcome of `Views.InscricaoUsuario` on them; it changes only the registrations, and those only on success |
| Views.CargaPostada | api/views.py:309 | the hours come from `carga_horaria`, else `carga`, else `cert_carga`, and are blank only when all three are |
| Views.FormCertificadoValidoSpec | api/views.py:313-334 | the certificate form is valid exactly when no error applies |
| Views.ErrosCertificadoOcorrem | api/views.py:313-334 | the ordered certificate error list holds an error exactly when that error applies |
| Views.ErrosCertificadoSpec | api/views.py:313-334 | the ordered certificate error list holds exactly the errors that apply, and is empty exactly when the form is valid |
| Views.ValidaCertificado | api/views.py:313-334 | the checks record, in the source's order, exactly the errors that apply: no registration, no issuer, missing, non-positive or invalid hours, an unparseable validity date |
| Views.EmissaoCertificado | api/views.py:313-371 | an invalid form renders the ordered error messages; a certificate is written exactly when the form is valid, the registration exists and is confirmed with attendance, and the issuer is an admin or organizer; then it is created or updated under that registration, otherwise nothing is written |
| Views.EmissaoCertificadoPost | api/views.py:303-371 | the POST handler reads the posted fields and then has the whole outcome of `Views.EmissaoCertificado` on them: the ordered form errors, each refusal, and the issued or updated certificate; it writes nothing unless it reports success |
| Endpoints.EventosListados | api/endpoints.py:60-77 | an organizer lists exactly the events they organize; every other role lists all events; the list selects exactly the scope of the detail, update and delete views |
| Endpoints.GestaoEventoSpec | api/endpoints.py:130-170 | event update and delete reach the event exactly for an admin or for the organizer who owns it; an organizer asking for another's event gets "not found", never "forbidden" |
| Endpoints.CriarPropriaInscricao | api/endpoints.py:204-214 | an organizer is refused with nothing written; otherwise exactly one pending registration is added for the requesting user and the 201 body is the serializer's event, or the duplicate pair is an uncaught database error with nothing written |
| Endpoints.InscricaoCreate | api/endpoints.py:195-214 | the permission check comes first; then an unknown event is rejected; a created registration always belongs to the requester, who is a student or professor, and is answered with the event; nothing changes unless one is created |
| Endpoints.DoParticipante | api/endpoints.py:243-247 | a user's registrations (and, by the same filter at lines 349-353, certificates) are exactly the rows in which that user is the participant |
| Endpoints.InscricoesGeridas | api/endpoints.py:259-266 | an organizer manages the registrations of the events they organize; other roles manage all |
| Endpoints.InscricoesExcluiveis | api/endpoints.py:321-334 | students and professors delete among their own registrations, organizers among their events' registrations, others among all |
| Endpoints.Participantes | api/endpoints.py:408-412 | the participant list is exactly the students and professors |
| Endpoints.InscricoesDoEventoSpec | api/endpoints.py:424-435 | an event's registrations are listed exactly for admins, and for the organizer who owns the event; the list is exactly that event's registrations |
| Endpoints.CancelarInscricao | api/endpoints.py:284-309 | cancel succeeds exactly for the participant, an admin, or the organizer of the event; it then sets the status to CANCELADA, leaves attendance and everything else as it was, and answers 200 with the serializer's event; otherwise "forbidden" or "not found" and nothing changes |
| Endpoints.ExclusaoInscricaoSpec | api/endpoints.py:319-334 | delete is allowed exactly for an admin, the organizer of the event, or the participant when a student, professor or visitor; a visitor deleting another's registration is refused, not told "not found" |
| Endpoints.ExcluirInscricao | api/endpoints.py:312-334 | the delete endpoint answers the refusal of the decision above with nothing changed, or, when allowed, removes the registration and its certificate only and answers 204 without a body |
| Endpoints.CertificadosVisiveis | api/endpoints.py:366-379 | students and professors see their own certificates, organizers those of their events, others all |
| Endpoints.ConsultaCertificadoSpec | api/endpoints.py:356-393 | a certificate is shown exactly when it is in the requester's scope and the certificate permission admits the requester |
| Endpoints.AtividadesEventos | api/endpoints.py:465-473 | one "event created" line per listed event, in order, with its name, timestamp and organizer |
| Endpoints.AtividadesInscricoes | api/endpoints.py:479-487 | one "registration created" line per listed registration, in order, with participant, event and status |
| Endpoints.Inserir | api/endpoints.py:489 | inserting a line into a newest-first list keeps it newest first and adds exactly that line |
| Endpoints.NaFrente | api/endpoints.py:489 | a line at least as recent as the head of a newest-first list may go in front of it |
| Endpoints.OrdenarPorData | api/endpoints.py:489 | the sort yields a newest-first permutation of its input |
| Endpoints.LinhasDoRelatorio | api/endpoints.py:461-487 | the two loops append the event lines, then the registration lines |
| Endpoints.LinhasDeEventos | api/endpoints.py:465-473 | the event loop yields exactly one event line per listed event, in listing order |
| Endpoints.LinhasDeInscricoes | api/endpoints.py:479-487 | the registration loop appends exactly one registration line per listed registration, in listing order, after what was there |
| Endpoints.AuditLogGet | api/endpoints.py:442-490 | only organizers and admins get the report; it holds the requester's name and role and the 10 newest events and 10 newest registrations of their scope, merged newest first |
| Endpoints.ListagensNoBanco | api/endpoints.py:461-477 | every listed event and registration exists in the store with its related rows |
| Endpoints.PrimeirosSaoOsMaisRecentes | api/endpoints.py:463 | taking the first n of a newest-first listing leaves out no event newer than one that was taken |
| EmitirCertificados.EnvioPara | api/management/commands/emitir_certificados.py:38-66 | a blank stripped address is refused without sending; otherwise the mail is sent exactly when delivery succeeds |
| EmitirCertificados.ResumoDe | api/management/commands/emitir_certificados.py:68-71 | the summary reports a total exactly when at least one certificate was issued, and that total is the count |
| EmitirCertificados.EmitidosPasso | api/management/commands/emitir_certificados.py:29-33 | issuing one more certificate extends the record of what the run has issued |
| EmitirCertificados.EmitidosComposicao | api/management/commands/emitir_certificados.py:18-34 | what one event's loop issues composes with what the earlier events' loops issued |
| EmitirCertificados.AvisosPasso | api/management/commands/emitir_certificados.py:37-66 | each issued certificate adds one notice, whatever the mail's fate |
| EmitirCertificados.AvisosConcat | api/management/commands/emitir_certificados.py:18-66 | notices of disjoint batches concatenate |
| EmitirCertificados.LacoDoEventoInicio | api/management/commands/emitir_certificados.py:20-24 | the inner loop starts with all of the event's eligible registrations pending and nothing issued |
| EmitirCertificados.LacoDoEventoPula | api/management/commands/emitir_certificados.py:28 | a registration that already has a certificate is skipped and keeps it |
| EmitirCertificados.LacoDoEventoEmite | api/management/commands/emitir_certificados.py:28-34 | a registration without one gets a certificate, and the count goes up by one |
| EmitirCertificados.LacoDoEventoFim | api/management/commands/emitir_certificados.py:26-34 | when the inner loop ends, it has issued exactly the event's eligible registrations that lacked a certificate |
| EmitirCertificados.EmitirDoEvento | api/management/commands/emitir_certificados.py:20-66 | for one event, every eligible registration without a certificate gets one with the event's hours and no issuer; nothing else changes; the count and the notices match the issued set |
| EmitirCertificados.LacoDaVarreduraInicio | api/management/commands/emitir_certificados.py:14-16 | the sweep starts over the events that ended before today, with nothing issued |
| EmitirCertificados.LacoDaVarreduraPasso | api/management/commands/emitir_certificados.py:18-66 | finishing one event's loop advances the sweep by exactly that event's batch |
| EmitirCertificados.VarrerEvento | api/management/commands/emitir_certificados.py:18-66 | one turn of the outer loop keeps the store valid and advances the sweep by the event's batch, with one notice per certificate |
| EmitirCertificados.LacoDaVarreduraFim | api/management/commands/emitir_certificados.py:18-66 | at the end, the issued set is exactly the eligible registrations of finished events that lacked a certificate, and none is left |
| EmitirCertificados.Handle | api/management/commands/emitir_certificados.py:10-71 | the sweep issues certificates exactly to confirmed, attended registrations of events ended before today that had none; the count equals that number; one notice each; mail failures change nothing; a second run finds nothing to issue |
| EmitirCertificados.LoteDoEvento | api/management/commands/emitir_certificados.py:18-24 | one finished event's batch is exactly the part of the run's target set on that event, and is disjoint from what was issued before |
| EmitirCertificados.FimDaVarredura | api/management/commands/emitir_certificados.py:28 | once every target has a certificate, no eligible registration is left without one |
| Audit.AntesDaVirgula | api/audit.py:13 | the text before the first comma is a prefix without a comma, followed by a comma or the end of the header |
| Audit.AntesDaVirgulaUnica | api/audit.py:13 | that prefix is the only one with those properties |
| Audit.GetClientIp | api/audit.py:9-16 | a non-empty `X-Forwarded-For` gives its text before the first comma; otherwise `REMOTE_ADDR` |
| Audit.UserAgentDe | api/audit.py:44-49 | the user agent is exactly the first 255 characters of the header (a prefix of it, the whole header when it fits, exactly 255 long when it does not), and empty without a request or header |
| Audit.AtorDe | api/audit.py:52-53 | an explicit user always wins; otherwise the authenticated request user; otherwise nobody |
| Audit.RegistroAuditoria.constructor | api/audit.py:55-70 | the audit log starts empty |
| Audit.RegistroAuditoria.LogAction | api/audit.py:19-70 | a successful write appends exactly the derived entry; a failing write is swallowed and leaves the log unchanged |
| Audit.EntradaDeSpec | api/audit.py:44-66 | the entry keeps the action and description, prefers the explicit actor, has no IP and an empty user agent without a request, and never a user agent over 255 |
| Audit.NomeEventoNaoVazio | api/audit.py:92 | `titulo or get_tipo_display()` is never empty, and is the title whenever there is one |
| Audit.CitacaoDe | api/audit.py:82 | a name written between single quotes, in a text with no other quotes around it, is read back exactly by taking what lies between the first and the last quote |
| Audit.ValorDecimalDe | api/audit.py:187 | the decimal text of a code reads back as that code |
| Audit.DigitosFinaisApos | api/audit.py:187 | after a text that does not end in a digit, the trailing digits are exactly the appended digits |
| Audit.LogUsuarioCriado | api/audit.py:75-83 | "user created" names the creator as actor, the new user as affected, no extra data, and its quoted name reads back as the new user's username |
| Audit.LogEventoCriado | api/audit.py:86-99 | "event created" quotes the event's (non-empty) name so that it reads back; its extra data have exactly the keys type, place, capacity and start date, and give back the event's type, place, capacity and `isoformat` of its start date |
| Audit.LogEventoAtualizado | api/audit.py:102-110 | "event updated" quotes the event's name so that it reads back, and stores the changed fields exactly when the list is non-empty |
| Audit.InfoEventoExcluido | api/endpoints.py:172-188 | the deleted event's info has exactly the keys id, type, title, place and dates, giving back the event's id, type, title and place and `isoformat` of both its dates |
| Audit.InfoEventoExcluidoIdentifica | api/endpoints.py:172-188 | the captured info identifies the deleted event: since `isoformat` writes distinct dates differently, equal info means equal id, type, title, place, start date and end date |
| Audit.LogEventoExcluidoComoEscrito | api/audit.py:113-120 | as written: the description uses the info's `titulo` whenever the key is present, even when it is empty |
| Audit.EventoSemTituloExcluidoSemNome | api/audit.py:118 | for an event without a title, the code as written logs "Evento '' excluído", while the corrected helper names the event's type |
| Audit.LogEventoExcluido | api/audit.py:113-120 | corrected: the description uses the title when it is non-empty, else the type |
| Audit.EventoExcluidoSempreNomeado | api/audit.py:118 | with the correction, a deleted event is always named by its title or, failing that, its type |
| Audit.LogEventoConsultadoApi | api/audit.py:123-131 | a lookup of one event records it and ends the description with its name; otherwise a list query is logged with no event |
| Audit.ConsultaDeListaDistinta | api/audit.py:125 | a list query is never described like a lookup of one event |
| Audit.LogInscricaoCriada | api/audit.py:134-144 | "registration created" names participant, event and registration, its description contains the participant's quoted name and ends with the event's, and the recorded status reads back as the registration's |
| Audit.LogInscricaoAtualizada | api/audit.py:147-164 | the status change is appended to the description exactly when a previous status is given and non-empty, and then contains that status and ends with the new status's label; the extra data have exactly the keys `status_anterior` (the given status, or null) and `status_novo` (the new status) |
| Audit.LogInscricaoCancelada | api/audit.py:167-176 | "registration cancelled" names participant, event and registration, its description contains the participant's quoted name followed by "cancelada" and ends with the event's quoted name, with no extra data |
| Audit.DescricaoCertificadoGeradoLe | api/audit.py:187 | the issued-certificate description contains the participant's quoted name, and its trailing digits read back as the code |
| Audit.LogCertificadoGerado | api/audit.py:179-192 | "certificate issued" names the certificate, its description quotes the participant and ends with a code that reads back as the certificate's, and the extra data give back the code and hours |
| Audit.LogCertificadoConsultado | api/audit.py:195-206 | the API action kind is chosen, and `" via API"` ends the description, exactly when the lookup came through the API |
| Audit.LogLogin | api/audit.py:209-216 | a login names the user as actor, and whatever the request the recorded entry keeps them as actor; nobody is affected, and the quoted name reads back as the username |
| Audit.LogLogout | api/audit.py:219-226 | a logout names the user as actor, and whatever the request the recorded entry keeps them as actor; nobody is affected, and the quoted name reads back as the username |
| Audit.LoginLogoutDistintos | api/audit.py:209-226 | a login is never described like a logout |

## Left out

- E-mail delivery (`send_mail`, `api/emails.py`) is not modelled as I/O. The set of registrations whose mail is delivered is a parameter; a failed or skipped mail only changes the notice recorded.
- Console output of the command (`self.stdout.write`) is not modelled; its outcome is the issued count, the notices and the summary value.
- Wall-clock time and UUIDs are parameters or counters: "today" and "now" are passed in, and `codigo` is a fresh positive number from a counter. UUID text formatting is not modelled.
- Authentication, sessions and password hashing (`AutenticacaoView`), template rendering and every `get_context_data` query are not modelled. The requesting principal is an input.
- Transactions and races are not modelled: each handler runs atomically and alone.
- The audit calls wired through `api/signals.py` and made by the endpoints are not connected to the handlers. The `log_*` helpers and `log_action` are modelled on their own.
- `api/serializers.py`, `api/admin.py`, URL routing and the seed scripts are not part of this model. The serializer's one rule, that the registrant is the requester, is part of `Endpoints.InscricaoCreate`.
- `EventoCreateView`, `InscricaoManageCreateView` and the update views: only their permission and scope decisions are modelled (`Endpoints.GestaoEventoSpec`, `Endpoints.InscricoesGeridas`), not the serializer-driven field updates.
- Response bodies: where a view returns `InscricaoSerializer(...).data`, the body is that serializer's one field, the event. The bodies of the listing and detail views (`Endpoints.InscricoesDoEvento`, `Endpoints.ConsultaCertificado`) and of the access decisions (`Endpoints.GestaoEvento`, `Endpoints.ExclusaoInscricao`) stand for the rows reached, not for the serializer payload.
- `Endpoints.InscricaoCreate`: a posted event that is not a number is treated like a missing event. The `ValidationError` branch of `perform_create` is not modelled, because a new pending registration never fails the capacity check.
- `Endpoints.OrdenarPorData`: the sort is proved to be a newest-first permutation, but not to be stable for equal timestamps. Python's sort is stable.
- Endpoints.Participantes: the participant list is a set; the `order_by('nome')` of `api/endpoints.py:412` is not modelled.
- Endpoints.EventosListados: the listed events are a set; the default ordering of `Evento.Meta.ordering` (`["data_inicio", "tipo"]`, `api/models.py:86`) is not modelled.
- Endpoints.Recusa: the choice between `NotAuthenticated` for the anonymous user and 403 otherwise is DRF's `APIView.permission_denied`, which is not part of this repository; the model follows DRF's documented behaviour.
- Audit.RegistroAuditoria.LogAction: the `print` of `api/audit.py:70` on a failed write is console output and is not modelled; only the swallowed failure is.
- `Endpoints.AuditLogGet`: the database's `order_by(...)[:10]` listings are inputs, required to be the newest-first enumeration of the scope. The ordering among equal timestamps is left to the database, as in the source.
- `EmitirCertificados.Handle`: iteration order over events and registrations is not fixed (sets). The notices are proved to match the issued registrations one for one, not in a particular order.
- Audit.Repr: Python's `repr` of a list is modelled with single quotes and no escaping. Python switches to double quotes for an item that contains `'` and escapes backslashes.
- Views.StrMensagem: `str()` of a one-message `ValidationError` is modelled as `['m']` in every case. Python's `repr` switches to double quotes when the message contains `'` and escapes backslashes; the fixed messages of the model contain neither.
- Store.Database.CreateUsuario: the normalisation `create_user` applies (Unicode NFKC of the username, lower-casing of the e-mail domain) is a parameter, `Store.Normalizacao`, not computed. Uniqueness is decided on the normalised username and the normalised user is stored, but the properties of NFKC itself are not modelled.
- `Evento.titulo` and `Evento.carga_horaria` are not fields of `Evento` in `api/models.py:70-83`, yet the source reads them (`api/endpoints.py:178`, `api/audit.py:92`, `api/management/commands/emitir_certificados.py:31`). The model gives `Models.Evento` both fields. An event created through the form (`api/views.py:199-206` sets neither) gets an empty title and the hours default `cargaPadrao`, a parameter.
- `Inscricao`, `Certificado`, `InscricaoStatus` and `AuditLog` are not defined in the repository's `api/models.py`. Their fields and save rules are reconstructed from `api/tests.py:80-117`, from the views' `except ValidationError` and `except IntegrityError` clauses, and from the fields `api/audit.py` writes.
- The sign-up password (`senha`) is passed to `create_user` in the source; the model does not store it.
- `Audit.LogInscricaoAtualizada`: `status_anterior` is an optional string, and the status display label stands for `get_status_display()`.
- The message text of the `ValidationError`s raised by `Inscricao` and `Certificado` saves is not shown in the repository. The model uses a fixed message under the non-field key.
- Usuario and Evento creation do not run `full_clean()` in the source. Their database writes check only the CheckConstraints and keys, as modelled; `clean()` is modelled separately.
- `test_banner_validation.py` tests a function that is not in the repository; it is not part of this model.

## Findings

| source | as written | input that shows it | evidently intended | confidence | as-written member | corrected member |
|---|---|---|---|---|---|---|
| api/audit.py:118 | `evento_info.get('titulo', evento_info.get('tipo'))` falls back to the type only when the key is missing, but the event info always carries a `titulo` key | an event whose title is empty: the log reads "Evento '' excluído" | name the event by its title when it has one, else by its type (as the event name in `AuditLogView` and the certificate mail do) | medium, not executed | Audit.LogEventoExcluidoComoEscrito (shown by Audit.EventoSemTituloExcluidoSemNome) | Audit.LogEventoExcluido (proved by Audit.EventoExcluidoSempreNomeado) |
