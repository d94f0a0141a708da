/** Whole flows through several screens, on the mock data: a parent logging in
    through the login screen, and an administrator's page deletion reaching
    the public site. */
module Scenarios {
  import opened Common
  import opened Types
  import opened MockData
  import Login
  import App
  import AdminDashboard
  import ParentPortal

  /** The mock parent types an upper-cased email and a four-character
      password and lands on the parent screen. Given the student list its
      props declare, the parent portal would then show Alice's report card;
      the shell does not pass that list (see the README). */
  method ParentLoginScenario() returns (view: App.View, screen: ParentPortal.Screen)
    ensures view == App.ParentScreen(ParentUser)
    ensures screen.Grades? && screen.student == Alice && screen.card.average == 16.5
  {
    var app := new App.AppState("#login");
    assert app.Render() == App.LoginScreen(MockUsers);
    var form := new Login.LoginForm(MockUsers);
    form.SetEmail("PAI@EMAIL.COM");
    form.SetPassword("1234");
    Login.ParentLogsIn();
    var loggedIn := form.HandleSubmit();
    app.HandleLogin(loggedIn.value);
    app.HashChanged(app.locationHash);
    view := app.Render();
    screen := ParentPortal.PortalScreen(MockStudents, view.user);
    ParentPortal.MockParentSeesAlice();
  }

  /** The administrator deletes the privacy page; once the editor publishes,
      the public site seen after logging out no longer lists it, and every
      other part of the site content is as it was. */
  method AdminDeleteScenario() returns (view: App.View)
    ensures view.PublicSite?
    ensures view.content == InitialSiteContent.(pages := [InitialSiteContent.pages[0]])
  {
    var app := new App.AppState("#login");
    app.HandleLogin(AdminUser);
    app.HashChanged(app.locationHash);
    assert app.Render() == App.AdminScreen(AdminUser, InitialSiteContent);
    var editor := new AdminDashboard.PageEditor(app.siteContent);
    var published := editor.HandleDeletePage("p2", true);
    AdminDashboard.RemoveExistingPage(InitialSiteContent.pages, 1);
    assert InitialSiteContent.pages[..1] + InitialSiteContent.pages[2..] == [EnrollmentPage];
    app.UpdateSite(published.value);
    app.HandleLogout();
    app.HashChanged(app.locationHash);
    view := app.Render();
  }

  /** The administrator opens a blank page, gives it a title and saves it at
      time `now`: the page is appended under `page-<now>` after the existing
      pages, which are unchanged, and ids stay unique. */
  method AdminNewPageScenario(now: nat, title: string) returns (pages: seq<SitePage>)
    ensures |pages| == |InitialSiteContent.pages| + 1
    ensures pages[..|InitialSiteContent.pages|] == InitialSiteContent.pages
    ensures pages[|InitialSiteContent.pages|] == SitePage(AdminDashboard.NewPageId(now), title, "", "", true)
    ensures AdminDashboard.UniqueIds(pages)
  {
    var editor := new AdminDashboard.PageEditor(InitialSiteContent);
    editor.SetEditingPage(Some(AdminDashboard.BlankPage));
    editor.SetEditingPage(Some(AdminDashboard.BlankPage.(title := title)));
    var published := editor.HandleSavePage(now);
    pages := published.value.pages;
    assert AdminDashboard.NewPageId(now)[..5] == "page-";
    AdminDashboard.SavePreservesUniqueIds(InitialSiteContent.pages, AdminDashboard.BlankPage.(title := title), now);
  }
}
