/** The account endpoints of backend/users_app/views.py: the consent gate in
    front of registration (`RegisterView.create`) and the profile of the
    signed-in user (`MeView.get`), which the client reads back for its
    admin flag. */
module UserViews {
  import opened Common
  import opened JsonValue
  import opened TaskViews
  import opened RegisterPage
  import opened UseAuth
  import opened LoginPage
  import opened AppRoutes

  const ConsentKey := "consentement_rgpd"
  const ConsentMissing := "Vous devez accepter la politique de confidentialit\U{E9}."

  /** A user account as the profile endpoint reads it. */
  datatype Account = Account(username: string, email: string, firstName: string, lastName: string,
                             isStaff: bool)

  /** `request.data.get("consentement_rgpd", False)`: a missing key reads as
      false. */
  function ConsentValue(data: map<string, Json>): (v: Json)
    ensures ConsentKey !in data ==> v == JBool(false)
    ensures ConsentKey in data ==> v == data[ConsentKey]
  {
    if ConsentKey in data then data[ConsentKey] else JBool(false)
  }

  /** `RegisterView.create`: a 400 with the consent error when the value is
      false in Python's sense; `None` when the request goes on to the
      framework's creation. */
  function RegisterGate(data: map<string, Json>): (r: Option<Response>)
    ensures r.Some? <==> !PyTruthy(ConsentValue(data))
    ensures r.Some? ==> r.value == Response(400, map["error" := ConsentMissing])
  {
    if !PyTruthy(ConsentValue(data)) then Some(Response(400, map["error" := ConsentMissing]))
    else None
  }

  /** The gate's cases: no key, `false`, an empty string, an empty list or
      dict, and zero are refused; `true`, any non-empty string (even
      "false") and a non-empty list or dict go through. An empty list or
      dict is refused although the client would count it as given. */
  lemma {:induction false} ConsentCases(data: map<string, Json>)
    ensures ConsentKey !in data ==> RegisterGate(data).Some?
    ensures RegisterGate(data[ConsentKey := JBool(true)]).None?
    ensures RegisterGate(data[ConsentKey := JBool(false)]).Some?
    ensures RegisterGate(data[ConsentKey := JStr("false")]).None?
    ensures RegisterGate(data[ConsentKey := JStr("")]).Some?
    ensures RegisterGate(data[ConsentKey := JNum(0)]).Some?
    ensures RegisterGate(data[ConsentKey := JArr([])]).Some? && Truthy(JArr([]))
    ensures RegisterGate(data[ConsentKey := JObj(map[])]).Some? && Truthy(JObj(map[]))
  {
    assert "false" != "";
  }

  /** The registration page only sends a form whose consent box is ticked,
      as a boolean, so its requests always pass the gate. */
  lemma {:induction false} RegisterPagePassesGate(form: RegisterForm, data: map<string, Json>)
    requires RegisterPage.Acceptable(form)
    ensures RegisterGate(data[ConsentKey := JBool(Payload(form).consent)]).None?
  {
  }

  /** `MeView.get`: the account under the French keys the client reads. */
  function Me(a: Account): (p: Json)
    ensures p.JObj? && p.fields.Keys == {"nom_utilisateur", "email", "prenom", "nom", "est_admin"}
    ensures Get(p, "nom_utilisateur") == JStr(a.username) && Get(p, "email") == JStr(a.email)
    ensures Get(p, "prenom") == JStr(a.firstName) && Get(p, "nom") == JStr(a.lastName)
    ensures Get(p, "est_admin") == JBool(a.isStaff)
  {
    JObj(map["nom_utilisateur" := JStr(a.username), "email" := JStr(a.email),
             "prenom" := JStr(a.firstName), "nom" := JStr(a.lastName),
             "est_admin" := JBool(a.isStaff)])
  }

  /** What the client does with that profile follows the staff flag alone:
      the login page sends staff to the admin list and everyone else to the
      task list, the stored flag reads "true" or "false", and the admin
      route opens exactly for staff. */
  lemma {:induction false} ProfileDrivesClient(a: Account)
    ensures Destination(Me(a)) == if a.isStaff then AdminTasksPath else LoginPage.TasksPath
    ensures StaffFlag(Me(a)) == if a.isStaff then "true" else "false"
    ensures PrivateRoute(false, true, Get(Me(a), "est_admin"), true) ==
      if a.isStaff then Children else Redirect(AppRoutes.TasksPath)
  {
    assert Get(Me(a), "est_admin") == JBool(a.isStaff);
  }
}
