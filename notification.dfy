/** The build notification posted to the incoming webhook before the upload:
    a header with the message title and one section of four labelled fields. */
module Notification {
  import opened Wire
  import Text

  const SuccessSymbol := "\U{2705}"  // white heavy check mark
  const FailureSymbol := "\U{274C}"  // cross mark

  /** The status field shows success exactly for the build status "success"
      (compared as an exact string), and failure for every other value. */
  function StatusSymbol(buildStatus: string): (symbol: string)
    ensures symbol == SuccessSymbol <==> buildStatus == "success"
    ensures symbol == FailureSymbol <==> buildStatus != "success"
  {
    if buildStatus == "success" then SuccessSymbol else FailureSymbol
  }

  /** A labelled field of the section block: the label in bold, a line break, the value. */
  function Field(name: string, value: string): TextObject
  {
    Markdown("*" + name + ":*\n" + value)
  }

  /** The notification message. The commit field links to the commit URL under the text "View". */
  function Payload(title: string, appName: string, buildStatus: string, buildNumber: string,
                   commitUrl: string): (m: Message)
    ensures |m.blocks| == 2 && m.blocks[0] == Header(PlainText(title, true))
    ensures m.blocks[1].Section? && |m.blocks[1].fields| == 4
    ensures forall i :: 0 <= i < 4 ==> m.blocks[1].fields[i].Markdown?
    ensures m.blocks[1].fields[0].text == "*App:*\n" + appName
    ensures m.blocks[1].fields[1].text == "*Status:*\n" + StatusSymbol(buildStatus)
    ensures m.blocks[1].fields[2].text == "*Build:*\n#" + buildNumber
    ensures m.blocks[1].fields[3].text == "*Commit:*\n<" + commitUrl + "|View>"
    ensures m.blocks[1].fields[1].text == "*Status:*\n" + SuccessSymbol <==> buildStatus == "success"
  {
    // The two status texts differ in the symbol after the label.
    assert ("*Status:*\n" + FailureSymbol)[10] != ("*Status:*\n" + SuccessSymbol)[10];
    Message([
      Header(PlainText(title, true)),
      Section([
        Field("App", appName),
        Field("Status", StatusSymbol(buildStatus)),
        Field("Build", "#" + buildNumber),
        Field("Commit", "<" + commitUrl + "|View>")
      ])
    ])
  }

  lemma FieldValueDetermined(name: string, v1: string, v2: string)
    requires Field(name, v1) == Field(name, v2)
    ensures v1 == v2
  {
    Text.PrefixCancel("*" + name + ":*\n", v1, v2);
  }

  /** Two notifications are equal exactly when they agree on the title, the
      application name, whether the build succeeded, the build number and the
      commit URL: each of these is visible in the message, and nothing else
      about the build status is. */
  lemma PayloadDetermined(title1: string, app1: string, status1: string, build1: string, commit1: string,
                          title2: string, app2: string, status2: string, build2: string, commit2: string)
    ensures Payload(title1, app1, status1, build1, commit1) == Payload(title2, app2, status2, build2, commit2)
            <==> && title1 == title2 && app1 == app2
                 && (status1 == "success") == (status2 == "success")
                 && build1 == build2 && commit1 == commit2
  {
    var m1 := Payload(title1, app1, status1, build1, commit1);
    var m2 := Payload(title2, app2, status2, build2, commit2);
    if m1 == m2 {
      var fields1, fields2 := m1.blocks[1].fields, m2.blocks[1].fields;
      assert fields1[0] == fields2[0] && fields1[1] == fields2[1];
      assert fields1[2] == fields2[2] && fields1[3] == fields2[3];
      FieldValueDetermined("App", app1, app2);
      FieldValueDetermined("Status", StatusSymbol(status1), StatusSymbol(status2));
      FieldValueDetermined("Build", "#" + build1, "#" + build2);
      Text.PrefixCancel("#", build1, build2);
      FieldValueDetermined("Commit", "<" + commit1 + "|View>", "<" + commit2 + "|View>");
      Text.SuffixCancel("<" + commit1, "<" + commit2, "|View>");
      Text.PrefixCancel("<", commit1, commit2);
    }
  }
}
