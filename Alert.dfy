/**
  The alert notifier's text shaping (`send_email_alert` in Deployment/app.py):
  the colour and emoji chosen by risk level, the subject line, and the two
  HTML lists that show at most three causes and three suggestions, each cut to
  400 characters, with a placeholder item when a list is empty.

  The HTML page around the lists and the SMTP delivery are not modelled; an
  alert that is sent is the `Alert` value the endpoint records.
 */
module Alert {
  import opened Json
  import Text

  /** `shorten_text(text, limit=400)`. */
  const TextLimit := 400
  const Ellipsis := "..."
  /** `causes[:3]` and `suggestions[:3]`. */
  const MaxItems := 3

  const NoCauses := "No detailed causes found."
  const NoSuggestions := "Consult a doctor for personalized advice."

  const Green := "#4CAF50"
  const Amber := "#FFC107"
  const Red := "#F44336"
  const Grey := "#9E9E9E"

  /** The arguments of one `send_email_alert` call. */
  datatype Alert = Alert(to: Value, risk: string, causes: seq<string>, suggestions: seq<string>)

  datatype Style = Style(color: string, emoji: string)

  /** The parts of the message that depend on the alert. */
  datatype Message = Message(to: Value, subject: string, style: Style, causesHtml: string, suggestionsHtml: string)

  /** `risk_colors.get(risk, ("#9E9E9E", "⚪"))`. */
  function RiskStyle(risk: string): Style {
    if risk == "Good" then Style(Green, "\U{1F7E2}")
    else if risk == "Fair" then Style(Amber, "\U{1F7E0}")
    else if risk == "Bad" then Style(Red, "\U{1F534}")
    else Style(Grey, "\U{26AA}")
  }

  /** `text[:400] + "..." if len(text) > 400 else text`. */
  function Shorten(text: string): string {
    if |text| > TextLimit then text[..TextLimit] + Ellipsis else text
  }

  /** `xs[:n]`. */
  function Take<T>(xs: seq<T>, n: nat): seq<T> {
    if |xs| <= n then xs else xs[..n]
  }

  function Shortened(texts: seq<string>): seq<string> {
    seq(|texts|, i requires 0 <= i < |texts| => Shorten(texts[i]))
  }

  /** `f"<li>{text}</li>"`. */
  function Item(text: string): string {
    "<li>" + text + "</li>"
  }

  /** `"".join(f"<li>{t}</li>" for t in texts)`. */
  function ListHtml(texts: seq<string>): string {
    if texts == [] then "" else Item(texts[0]) + ListHtml(texts[1..])
  }

  /** `"".join(... shorten_text(x) ... for x in xs[:3]) or fallback`. */
  function ListBlock(xs: seq<string>, fallback: string): string {
    var html := ListHtml(Shortened(Take(xs, MaxItems)));
    if html != "" then html else fallback
  }

  function Subject(risk: string, emoji: string): string {
    emoji + " Smart Health Alert: " + risk + " Risk Detected"
  }

  /** The message `send_email_alert` composes for an alert. */
  function Render(a: Alert): Message {
    var style := RiskStyle(a.risk);
    Message(a.to, Subject(a.risk, style.emoji), style,
            ListBlock(a.causes, Item(NoCauses)), ListBlock(a.suggestions, Item(NoSuggestions)))
  }

  /** The items a list block shows: the placeholder alone for an empty list,
      otherwise the first three entries, each shortened. */
  function ShownItems(xs: seq<string>, placeholder: string): seq<string> {
    if xs == [] then [placeholder] else Shortened(Take(xs, MaxItems))
  }

  /** Shortened text is at most 403 characters long and keeps the first 400
      characters of the original; text of at most 400 characters is unchanged,
      and longer text becomes exactly 403 characters ending in "...". */
  lemma ShortenBounds(text: string)
    ensures |Shorten(text)| <= TextLimit + |Ellipsis|
    ensures Take(text, TextLimit) <= Shorten(text)
    ensures |text| <= TextLimit ==> Shorten(text) == text
    ensures |text| > TextLimit ==> |Shorten(text)| == TextLimit + |Ellipsis| && Shorten(text)[TextLimit..] == Ellipsis
  {
    if |text| > TextLimit {
      assert |Shorten(text)| == TextLimit + 3;
    }
  }

  /** Shortening twice is shortening once: a shortened text of 403 characters
      loses its own ellipsis and gets it back. */
  lemma ShortenIdempotent(text: string)
    ensures Shorten(Shorten(text)) == Shorten(text)
  {
    if |text| > TextLimit {
      var s := Shorten(text);
      assert s[..TextLimit] == text[..TextLimit];
    }
  }

  /** A text is its own shortening exactly when it fits in 400 characters or
      is already a shortening: 403 characters ending in "...". */
  lemma ShortenFixedPoints(text: string)
    ensures Shorten(text) == text <==>
              |text| <= TextLimit || (|text| == TextLimit + |Ellipsis| && text[TextLimit..] == Ellipsis)
  {
    if |text| == TextLimit + |Ellipsis| && text[TextLimit..] == Ellipsis {
      assert text == text[..TextLimit] + text[TextLimit..];
    }
  }

  /** The list markup is empty exactly when there are no items, and a non-empty
      list's markup starts with its first item's `<li>` element. */
  lemma {:induction false} ListHtmlEmptyIff(texts: seq<string>)
    ensures ListHtml(texts) == "" <==> texts == []
    ensures texts != [] ==> Item(texts[0]) <= ListHtml(texts)
  {
    if texts != [] {
      assert |ListHtml(texts)| >= |Item(texts[0])| >= 9;
    }
  }

  /** A list block shows one to three items: the placeholder when the list is
      empty, otherwise the first three entries in order, each at most 403
      characters long and equal to its entry when that fits in 400. */
  lemma ListBlockShows(xs: seq<string>, placeholder: string)
    ensures ListBlock(xs, Item(placeholder)) == ListHtml(ShownItems(xs, placeholder))
    ensures 1 <= |ShownItems(xs, placeholder)| <= MaxItems
    ensures xs != [] ==> forall i | 0 <= i < |ShownItems(xs, placeholder)| ::
              ShownItems(xs, placeholder)[i] == Shorten(xs[i])
              && |ShownItems(xs, placeholder)[i]| <= TextLimit + |Ellipsis|
              && (|xs[i]| <= TextLimit ==> ShownItems(xs, placeholder)[i] == xs[i])
  {
    var shown := Shortened(Take(xs, MaxItems));
    ListHtmlEmptyIff(shown);
    if xs == [] {
      assert ListHtml([placeholder]) == Item(placeholder) + ListHtml([]);
    }
    forall i | 0 <= i < |shown|
      ensures |shown[i]| <= TextLimit + |Ellipsis|
    {
      ShortenBounds(Take(xs, MaxItems)[i]);
    }
  }

  /** The message goes to the alert's address, is styled by its risk level,
      names that level in the subject, and lists what `ShownItems` selects from
      the causes and the suggestions. */
  lemma RenderShowsAlert(a: Alert)
    ensures var msg := Render(a);
            && msg.to == a.to && msg.style == RiskStyle(a.risk)
            && Text.Contains(msg.subject, " " + a.risk + " ")
            && msg.causesHtml == ListHtml(ShownItems(a.causes, NoCauses))
            && msg.suggestionsHtml == ListHtml(ShownItems(a.suggestions, NoSuggestions))
  {
    ListBlockShows(a.causes, NoCauses);
    ListBlockShows(a.suggestions, NoSuggestions);
    SubjectNamesRisk(a.risk, RiskStyle(a.risk).emoji);
  }

  /** The subject line names the risk level as a word of its own. */
  lemma SubjectNamesRisk(risk: string, emoji: string)
    ensures Text.Contains(Subject(risk, emoji), " " + risk + " ")
  {
    Text.ContainsInfix(emoji + " Smart Health Alert:", " " + risk + " ", "Risk Detected");
    assert Subject(risk, emoji) == emoji + " Smart Health Alert:" + (" " + risk + " ") + "Risk Detected";
  }

  /** The three named risk levels get three different colours, and every other
      risk level, "Unknown" included, gets grey. */
  lemma RiskStyleCases(risk: string)
    ensures RiskStyle(risk).color == Grey <==> risk != "Good" && risk != "Fair" && risk != "Bad"
    ensures RiskStyle("Good").color != RiskStyle("Fair").color
    ensures RiskStyle("Fair").color != RiskStyle("Bad").color
    ensures RiskStyle("Good").color != RiskStyle("Bad").color
  {
    assert Green[1] != Grey[1] && Amber[1] != Grey[1] && Red[1] != Grey[1];
    assert Green[1] != Amber[1] && Amber[2] != Red[2] && Green[1] != Red[1];
  }
}
