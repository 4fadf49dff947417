/**
 * How the login page and the two dashboards meet through browser storage.
 * The login page writes its token under "token"; the admin dashboard's gate
 * reads "adminToken" and its logout removes "token"; the sub-admin
 * dashboard's gate reads "subAdminToken". These runs put the pieces
 * together, so the consequences of the three keys are stated as written.
 */
module Session {
  import opened Js
  import AdminLogin
  import AdminDashboard
  import SubAdminDashboard
  import DashboardCounts

  /**
   * A login that passes both checks and gets an ok reply: one request to the
   * chosen endpoint, "token" and the profile stored, "/admin" scheduled.
   */
  method SuccessfulLogin(storage0: map<string, string>, loginType: string, email: string, password: string, body: JsValue)
    returns (login: AdminLogin.LoginPage)
    requires loginType == "subadmin" || loginType == "admin"
    requires AdminLogin.Validate(email, password).Proceed?
    requires !Nullish(body)
    ensures login.requests == [AdminLogin.LoginRequest(AdminLogin.Endpoint(loginType), email, password)]
    ensures login.storage ==
      storage0[AdminLogin.TokenKey := ToJsString(Get(body, "token"))][AdminLogin.ProfileKey := AdminLogin.ProfileText(body)]
    ensures login.navigations == [AdminLogin.AfterLoginPath]
  {
    login := new AdminLogin.LoginPage(storage0);
    login.SetLoginType(loginType);
    login.SetEmail(email);
    login.SetPassword(password);
    login.Submit();
    login.Receive(AdminLogin.Reply(true, body));
  }

  /**
   * A successful admin login stores "token" and schedules "/admin", yet the
   * admin dashboard, opened on the storage the login left, still redirects
   * to the login page unless "adminToken" was already there.
   */
  method LoginThenAdminDashboard(storage0: map<string, string>, email: string, password: string,
                                 body: JsValue, rs: DashboardCounts.Replies, settingsReply: DashboardCounts.Fetched)
    returns (login: AdminLogin.LoginPage, dashboard: AdminDashboard.Dashboard)
    requires AdminDashboard.TokenKey !in storage0
    requires AdminLogin.Validate(email, password).Proceed?
    requires !Nullish(body)
    ensures AdminLogin.TokenKey in login.storage
    ensures login.storage[AdminLogin.TokenKey] == ToJsString(Get(body, "token"))
    ensures login.navigations == [AdminLogin.AfterLoginPath]
    ensures dashboard.storage == login.storage
    ensures dashboard.navigations == [AdminDashboard.LoginPath]
  {
    login := SuccessfulLogin(storage0, "admin", email, password, body);
    assert login.storage.Keys == storage0.Keys + {AdminLogin.TokenKey, AdminLogin.ProfileKey};
    assert AdminDashboard.TokenKey != AdminLogin.TokenKey && AdminDashboard.TokenKey != AdminLogin.ProfileKey;
    assert AdminDashboard.TokenKey !in login.storage;
    dashboard := new AdminDashboard.Dashboard(login.storage);
    dashboard.Mount(rs, settingsReply);
  }

  /**
   * The same holds for the sub-admin dashboard and "subAdminToken", and
   * there the redirect comes before any request.
   */
  method LoginThenSubAdminDashboard(storage0: map<string, string>, email: string, password: string,
                                    body: JsValue, me: SubAdminDashboard.MeReply, rs: DashboardCounts.Replies)
    returns (login: AdminLogin.LoginPage, dashboard: SubAdminDashboard.Dashboard)
    requires SubAdminDashboard.TokenKey !in storage0
    requires AdminLogin.Validate(email, password).Proceed?
    requires !Nullish(body)
    ensures login.requests == [AdminLogin.LoginRequest(AdminLogin.SubAdminEndpoint, email, password)]
    ensures AdminLogin.TokenKey in login.storage
    ensures dashboard.requests == []
    ensures dashboard.navigations == [SubAdminDashboard.LoginPath]
    ensures dashboard.Render().Spinner?
  {
    login := SuccessfulLogin(storage0, "subadmin", email, password, body);
    assert login.storage.Keys == storage0.Keys + {AdminLogin.TokenKey, AdminLogin.ProfileKey};
    assert SubAdminDashboard.TokenKey != AdminLogin.TokenKey && SubAdminDashboard.TokenKey != AdminLogin.ProfileKey;
    assert SubAdminDashboard.TokenKey !in login.storage;
    dashboard := new SubAdminDashboard.Dashboard(login.storage);
    assert !SubAdminDashboard.HasToken(dashboard.storage);
    dashboard.Mount(me, rs);
  }

  /**
   * The admin dashboard's logout removes "token" only: when the gate's
   * "adminToken" was set, the next visit passes the gate without a redirect.
   */
  method LogoutThenReturn(storage0: map<string, string>, rs: DashboardCounts.Replies, settingsReply: DashboardCounts.Fetched)
    returns (first: AdminDashboard.Dashboard, second: AdminDashboard.Dashboard)
    requires AdminDashboard.TokenKey in storage0 && storage0[AdminDashboard.TokenKey] != ""
    ensures first.navigations == [AdminDashboard.LoginPath]
    ensures AdminDashboard.LogoutKey !in first.storage
    ensures AdminDashboard.TokenKey in first.storage
    ensures first.storage[AdminDashboard.TokenKey] == storage0[AdminDashboard.TokenKey]
    ensures second.navigations == []
  {
    first := new AdminDashboard.Dashboard(storage0);
    first.Mount(rs, settingsReply);
    first.Logout();
    assert AdminDashboard.LogoutKey != AdminDashboard.TokenKey;
    second := new AdminDashboard.Dashboard(first.storage);
    second.Mount(rs, settingsReply);
  }
}
