/** The action's entry point: post the build notification, then upload the
    artifact under a derived display name with a derived comment, and report
    any failure once, with a fixed prefix. The inputs the action reads from
    its environment are passed in as a configuration record. */
module Orchestrator {
  import opened Wire
  import opened Uploader
  import Notification
  import Text

  /** The action's inputs, as read from the environment. */
  datatype Config = Config(
    webhookUrl: string,
    token: string,
    channel: string,
    filePath: string,
    buildNumber: string,
    buildStatus: string,
    commitUrl: string,
    messageTitle: string,
    messageColor: string,
    appName: string,
    fileComment: string)

  /** How the action ends: normally, or with one failure message reported to the pipeline. */
  datatype ActionStatus = Succeeded | Failed(message: string)

  const FailurePrefix := "Action failed: "

  /** The display name of the uploaded artifact. */
  function FileName(appName: string, buildNumber: string): (name: string)
    ensures |name| == |appName| + |buildNumber| + 5
    ensures name[..|appName| + 1] == appName + "-" && name[|name| - 4..] == ".apk"
    ensures name[|appName| + 1..|name| - 4] == buildNumber
  {
    appName + "-" + buildNumber + ".apk"
  }

  /** The comment posted with the uploaded artifact. */
  function Comment(fileComment: string, buildNumber: string): (comment: string)
    ensures |comment| == |fileComment| + 2 + |buildNumber|
    ensures comment[..|fileComment|] == fileComment
    ensures comment[|fileComment|..|fileComment| + 2] == " #" && comment[|fileComment| + 2..] == buildNumber
  {
    fileComment + " #" + buildNumber
  }

  /** The notification built from the configuration; the message colour is not part of it. */
  function NotificationFor(cfg: Config): (m: Message)
    ensures |m.blocks| == 2 && m.blocks[0] == Header(PlainText(cfg.messageTitle, true))
    ensures m.blocks[1].Section? && |m.blocks[1].fields| == 4
    ensures m.blocks[1].fields[0] == Notification.Field("App", cfg.appName)
    ensures m.blocks[1].fields[1] == Notification.Field("Status", Notification.StatusSymbol(cfg.buildStatus))
    ensures m.blocks[1].fields[2] == Notification.Field("Build", "#" + cfg.buildNumber)
    ensures m.blocks[1].fields[3] == Notification.Field("Commit", "<" + cfg.commitUrl + "|View>")
  {
    Notification.Payload(cfg.messageTitle, cfg.appName, cfg.buildStatus, cfg.buildNumber, cfg.commitUrl)
  }

  /** Run the action once against the given replies: the requests made, in
      order, and how the action ends. */
  method Run(cfg: Config, notify: Exchange<()>, r: Replies) returns (calls: seq<Call>, status: ActionStatus)
    ensures |calls| >= 1 && calls[0] == PostWebhook(cfg.webhookUrl, NotificationFor(cfg))
    ensures NoRetries(calls)
    ensures notify.Threw? ==> calls == [calls[0]] && status == Failed(FailurePrefix + notify.message)
    ensures notify.Answered? ==>
              ProtocolTrace(calls[1..], cfg.token, cfg.filePath, cfg.channel,
                            FileName(cfg.appName, cfg.buildNumber), Comment(cfg.fileComment, cfg.buildNumber), r)
    ensures status.Succeeded? <==> notify.Answered? && Completed(r)
    ensures notify.Answered? && status.Failed? ==>
              exists e :: ProtocolOutcome(Err(e), r) && status.message == FailurePrefix + ErrorMessage(e)
  {
    calls := [PostWebhook(cfg.webhookUrl, NotificationFor(cfg))];
    if notify.Threw? {
      status := Failed(FailurePrefix + notify.message);
      return;
    }

    var fileName := FileName(cfg.appName, cfg.buildNumber);
    var uploadCalls, outcome := UploadFile(cfg.token, cfg.filePath, cfg.channel, fileName,
                                           Comment(cfg.fileComment, cfg.buildNumber), r);
    calls := calls + uploadCalls;
    assert calls[1..] == uploadCalls;
    if outcome.Err? {
      status := Failed(FailurePrefix + ErrorMessage(outcome.error));
      assert ProtocolOutcome(Err(outcome.error), r);
      return;
    }
    status := Succeeded;
  }

  /** End to end with every reply favourable: the action succeeds after
      exactly four requests, in the order notify, reserve, transfer, finalize. */
  method AllStepsSucceed(cfg: Config, size: nat, reservation: ReserveReply, completion: CompleteReply)
    returns (calls: seq<Call>, status: ActionStatus)
    requires reservation.ok && completion.ok
    ensures status == Succeeded
    ensures |calls| == 4
    ensures calls[0].PostWebhook? && calls[1].GetUploadUrl? && calls[2].PostForm? && calls[3].CompleteUpload?
  {
    calls, status := Run(cfg, Answered(()),
                         Replies(Size(size), Answered(reservation), Answered(TransferOk), Answered(completion)));
  }

  /** End to end with the reservation refused as "invalid_auth": the action
      fails with a message naming that error after exactly two requests,
      the notification and the reservation. */
  method ReservationRefusedInvalidAuth(cfg: Config, size: nat, uploadUrl: string, fileId: string,
                                       transfer: Exchange<int>, complete: Exchange<CompleteReply>)
    returns (calls: seq<Call>, status: ActionStatus)
    ensures |calls| == 2 && calls[0].PostWebhook? && calls[1].GetUploadUrl?
    ensures status.Failed? && Text.Contains(status.message, "invalid_auth")
  {
    var refusal := ReserveReply(false, uploadUrl, fileId, Some("invalid_auth"));
    var replies := Replies(Size(size), Answered(refusal), transfer, complete);
    calls, status := Run(cfg, Answered(()), replies);
    ghost var e :| ProtocolOutcome(Err(e), replies) && status.message == FailurePrefix + ErrorMessage(e);
    assert e == ReservationRefused(Some("invalid_auth"));
    assert status.message == (FailurePrefix + "Failed to get upload URL: ") + "invalid_auth";
    Text.ContainsTail(FailurePrefix + "Failed to get upload URL: ", "invalid_auth");
  }

  /** The message colour input is read but has no effect on the notification. */
  lemma NotificationIgnoresColor(cfg: Config, color: string)
    ensures NotificationFor(cfg.(messageColor := color)) == NotificationFor(cfg)
  {
  }

  lemma FileNameExample()
    ensures FileName("MyApp", "42") == "MyApp-42.apk"
  {
  }

  /** The display name starts with the application name and a dash, then the
      build number, and always ends in the ".apk" extension. */
  lemma FileNameShape(appName: string, buildNumber: string)
    ensures var name := FileName(appName, buildNumber);
            && |name| == |appName| + |buildNumber| + 5
            && name[..|appName| + 1] == appName + "-"
            && name[|appName| + 1..|name| - 4] == buildNumber
            && name[|name| - 4..] == ".apk"
  {
  }

  /** Given one of its two parts, a display name determines the other. */
  lemma FileNameDetermined(app1: string, build1: string, app2: string, build2: string)
    requires FileName(app1, build1) == FileName(app2, build2)
    ensures app1 == app2 <==> build1 == build2
  {
    Text.SuffixCancel(app1 + "-" + build1, app2 + "-" + build2, ".apk");
    if app1 == app2 {
      Text.PrefixCancel(app1 + "-", build1, build2);
    }
    if build1 == build2 {
      Text.SuffixCancel(app1 + "-", app2 + "-", build1);
      Text.SuffixCancel(app1, app2, "-");
    }
  }

  /** Without one of its parts, a display name does not determine the other:
      a dash in the application name or the build number makes two inputs collide. */
  lemma FileNameAmbiguous()
    ensures FileName("My-App", "42") == FileName("My", "App-42")
  {
  }

  /** For a fixed comment template, the comment determines the build number. */
  lemma CommentDetermined(fileComment: string, build1: string, build2: string)
    ensures Comment(fileComment, build1) == Comment(fileComment, build2) <==> build1 == build2
  {
    if Comment(fileComment, build1) == Comment(fileComment, build2) {
      Text.PrefixCancel(fileComment + " #", build1, build2);
    }
  }
}
