/** The content of the "suspicious sign in" message (`sendEmail` in both providers). */
module Alerts {
  import opened Wrappers
  import opened Text
  import opened Events

  const Subject := "Suspicious sign in detected"

  /** The plain-text body: the user's email and username and the event's client. */
  function PlainText(u: User, clientId: Option<string>): string {
    "Unrecognized IP location\n\nEmail: " + JavaString(u.email) + PlainTextTail(u.username, clientId)
  }

  function PlainTextTail(username: string, clientId: Option<string>): string {
    "\nUsername: " + username + ClientLine(clientId)
  }

  function ClientLine(clientId: Option<string>): string {
    "\nClient: " + JavaString(clientId)
  }

  /** The HTML body: greeting, the provider's notice, the location on record and the login's IP. */
  function Html(username: string, notice: string, location: string, ip: string): string {
    HtmlHead(username, notice) + location + HtmlTail(ip)
  }

  function HtmlHead(username: string, notice: string): string {
    "<h1>Hello, " + username + ("</h1><br>" + notice + "<br><p>Location of login: ")
  }

  function HtmlTail(ip: string): string {
    "</p><p>IP Address logged in: " + ip + "</p><br>"
  }

  lemma MentionsInfix(a: string, s: string, b: string)
    ensures Mentions(a + s + b, s)
  {
  }

  lemma MentionsSuffix(a: string, s: string)
    ensures Mentions(a + s, s)
  {
    assert a + s == a + s + [];
  }

  lemma MentionsWithin(t: string, s: string, a: string, b: string)
    requires Mentions(t, s)
    ensures Mentions(a + t + b, s)
  {
    var pre, post :| t == pre + s + post;
    assert a + t + b == (a + pre) + s + (post + b);
  }

  /** The HTML body names the user, the location and the IP address. */
  lemma HtmlMentions(username: string, notice: string, location: string, ip: string)
    ensures var html := Html(username, notice, location, ip);
            Mentions(html, location) && Mentions(html, ip) && Mentions(html, username)
  {
    var head := HtmlHead(username, notice);
    MentionsInfix(head, location, HtmlTail(ip));
    MentionsInfix("</p><p>IP Address logged in: ", ip, "</p><br>");
    MentionsWithin(HtmlTail(ip), ip, head + location, []);
    assert head + location + HtmlTail(ip) + [] == Html(username, notice, location, ip);
    MentionsInfix("<h1>Hello, ", username, "</h1><br>" + notice + "<br><p>Location of login: ");
    MentionsWithin(head, username, [], location + HtmlTail(ip));
    assert [] + head + (location + HtmlTail(ip)) == Html(username, notice, location, ip);
  }

  /** The plain-text body names the address, the user and the client. */
  lemma PlainTextMentions(u: User, clientId: Option<string>)
    requires u.email.Some?
    ensures var text := PlainText(u, clientId);
            Mentions(text, u.email.value) && Mentions(text, u.username) && Mentions(text, JavaString(clientId))
  {
    var lead := "Unrecognized IP location\n\nEmail: ";
    var tail := PlainTextTail(u.username, clientId);
    MentionsInfix(lead, JavaString(u.email), tail);
    MentionsInfix("\nUsername: ", u.username, ClientLine(clientId));
    MentionsWithin(tail, u.username, lead + JavaString(u.email), []);
    assert lead + JavaString(u.email) + tail + [] == PlainText(u, clientId);
    MentionsSuffix("\nClient: ", JavaString(clientId));
    MentionsWithin(ClientLine(clientId), JavaString(clientId), "\nUsername: " + u.username, []);
    assert "\nUsername: " + u.username + ClientLine(clientId) + [] == tail;
    MentionsWithin(tail, JavaString(clientId), lead + JavaString(u.email), []);
  }

  /**
   * The message `sendEmail` hands to the transport for a user with an address: sent to that
   * address, under the fixed subject; the HTML names the user, the location on record and
   * the IP address of the login, the text names the address, the user and the client.
   */
  function AlertEmail(u: User, e: AuthEvent, notice: string, location: string): (m: Email)
    requires u.email.Some?
    ensures m.to == u.email.value && m.subject == Subject
    ensures Mentions(m.html, location) && Mentions(m.html, JavaString(e.ipAddress)) && Mentions(m.html, u.username)
    ensures Mentions(m.text, u.email.value) && Mentions(m.text, u.username) && Mentions(m.text, JavaString(e.clientId))
  {
    HtmlMentions(u.username, notice, location, JavaString(e.ipAddress));
    PlainTextMentions(u, e.clientId);
    Email(u.email.value, Subject, PlainText(u, e.clientId), Html(u.username, notice, location, JavaString(e.ipAddress)))
  }
}
