/** The profile page (src/pages/Profile.jsx): the avatar url, the checks on a chosen picture, and
    the save, upload and remove handlers, which hand the server's user to the session. */
module Profile {
  import opened Wrappers
  import Text
  import Auth

  /** Pictures larger than 5 MiB are refused. */
  const MaxAvatarBytes: int := 5 * 1024 * 1024

  /** The first non-empty string of a list, if any. */
  function FirstNonEmpty(candidates: seq<string>): (r: Option<string>)
    ensures r.None? <==> forall i :: 0 <= i < |candidates| ==> candidates[i] == ""
    ensures r.Some? ==> exists i :: (0 <= i < |candidates| && candidates[i] == r.value && r.value != ""
      && forall j :: 0 <= j < i ==> candidates[j] == "")
  {
    if candidates == [] then None
    else if candidates[0] != "" then Some(candidates[0])
    else
      var rest := FirstNonEmpty(candidates[1..]);
      assert rest.Some? ==> exists i :: (0 <= i < |candidates| && candidates[i] == rest.value
        && forall j :: 0 <= j < i ==> candidates[j] == "") by {
        if rest.Some? {
          var k :| 0 <= k < |candidates[1..]| && candidates[1..][k] == rest.value
            && forall j :: 0 <= j < k ==> candidates[1..][j] == "";
          assert candidates[k + 1] == rest.value;
          forall j | 0 <= j < k + 1 ensures candidates[j] == "" {
            if j > 0 { assert candidates[j] == candidates[1..][j - 1]; }
          }
        }
      }
      assert rest.None? ==> forall i :: 0 <= i < |candidates| ==> candidates[i] == "" by {
        if rest.None? {
          forall i | 0 <= i < |candidates| ensures candidates[i] == "" {
            if i > 0 { assert candidates[i] == candidates[1..][i - 1]; }
          }
        }
      }
      rest
  }

  /** Searching a list looks at its head first. */
  lemma FirstNonEmptyCons(head: string, tail: seq<string>)
    ensures FirstNonEmpty([head] + tail) == if head != "" then Some(head) else FirstNonEmpty(tail)
  {
    assert ([head] + tail)[1..] == tail;
  }

  /** The places a user record may hold a picture url, in the order the page tries them. */
  function PictureFields(u: Auth.User): seq<string> {
    [u.pictureUrl, u.avatar, u.profileImage, u.photoUrl, u.profilePic]
  }

  /** The avatar: the first non-empty of the picture url, `avatar`, `profileImage`, `photoUrl`
      and `profilePic`; none without a user or when all are empty. */
  function AvatarUrl(user: Option<Auth.User>): (r: Option<string>)
    ensures r.Some? ==> r.value != ""
    ensures r.None? <==> (user.None? ||
      (user.value.pictureUrl == "" && user.value.avatar == "" && user.value.profileImage == ""
       && user.value.photoUrl == "" && user.value.profilePic == ""))
    ensures user.Some? ==> r == FirstNonEmpty(PictureFields(user.value))
  {
    match user
    case None => None
    case Some(u) =>
      FirstNonEmptyCons(u.profilePic, []);
      FirstNonEmptyCons(u.photoUrl, [u.profilePic]);
      FirstNonEmptyCons(u.profileImage, [u.photoUrl, u.profilePic]);
      FirstNonEmptyCons(u.avatar, [u.profileImage, u.photoUrl, u.profilePic]);
      FirstNonEmptyCons(u.pictureUrl, [u.avatar, u.profileImage, u.photoUrl, u.profilePic]);
      if u.pictureUrl != "" then Some(u.pictureUrl)
      else if u.avatar != "" then Some(u.avatar)
      else if u.profileImage != "" then Some(u.profileImage)
      else if u.photoUrl != "" then Some(u.photoUrl)
      else if u.profilePic != "" then Some(u.profilePic)
      else None
  }

  /** The file the picture input holds: its MIME type and its size in bytes. */
  datatype PictureFile = PictureFile(mimeType: string, size: int)

  /** The verdict on a chosen picture. */
  datatype UploadCheck = NoFile | NotImage | TooLarge | Accepted

  /** handleImageUpload's guards: no file, then the type, then the size. */
  function CheckUpload(file: Option<PictureFile>): (r: UploadCheck)
    ensures r == NoFile <==> file.None?
    ensures r == NotImage <==> file.Some? && !Text.StartsWith(file.value.mimeType, "image/")
    ensures r == TooLarge <==> file.Some? && Text.StartsWith(file.value.mimeType, "image/") && file.value.size > MaxAvatarBytes
    ensures r == Accepted <==> file.Some? && Text.StartsWith(file.value.mimeType, "image/") && file.value.size <= MaxAvatarBytes
  {
    match file
    case None => NoFile
    case Some(f) =>
      if !Text.StartsWith(f.mimeType, "image/") then NotImage
      else if f.size > MaxAvatarBytes then TooLarge
      else Accepted
  }

  /** The limit is inclusive, and the type is checked first: an oversized non-image is refused
      as a non-image. */
  lemma CheckUploadBoundaries()
    ensures CheckUpload(Some(PictureFile("image/png", MaxAvatarBytes))) == Accepted
    ensures CheckUpload(Some(PictureFile("image/png", MaxAvatarBytes + 1))) == TooLarge
    ensures CheckUpload(Some(PictureFile("application/pdf", MaxAvatarBytes + 1))) == NotImage
  {
    assert "image/png"[..6] == "image/";
    assert "application/pdf"[..6] != "image/" by {
      assert "application/pdf"[0] != "image/"[0];
    }
  }

  /** The reply to a profile request: it threw, or it answered with `success` and the updated user
      (None when the reply carries none). */
  datatype ProfileReply = ProfileThrew | ProfileReplied(success: bool, user: Option<Auth.User>)

  predicate Succeeded(reply: ProfileReply) {
    reply.ProfileReplied? && reply.success
  }

  /** The page's own flags and the picture input's current file. */
  class ProfilePage {
    var editing: bool
    var saving: bool
    var uploading: bool
    var chosenFile: Option<PictureFile>

    constructor ()
      ensures !editing && !saving && !uploading && chosenFile.None?
    {
      editing := false;
      saving := false;
      uploading := false;
      chosenFile := None;
    }

    /** The Edit profile button. */
    method StartEditing()
      modifies this
      ensures editing
      ensures saving == old(saving) && uploading == old(uploading) && chosenFile == old(chosenFile)
    {
      editing := true;
    }

    /** The Cancel button leaves editing mode. */
    method CancelEditing()
      modifies this
      ensures !editing
      ensures saving == old(saving) && uploading == old(uploading) && chosenFile == old(chosenFile)
    {
      editing := false;
    }

    /** The user picks a file in the picture input. */
    method ChooseFile(file: Option<PictureFile>)
      modifies this
      ensures chosenFile == file
      ensures editing == old(editing) && saving == old(saving) && uploading == old(uploading)
    {
      chosenFile := file;
    }

    /** handleSubmit: without a signed-in user nothing is sent. A successful save hands the
        server's user to the session and leaves editing mode; a failed one stays in it. */
    method HandleSubmit(session: Auth.Session, reply: ProfileReply) returns (sent: bool)
      modifies this, session
      ensures sent <==> old(session.user).Some?
      ensures sent && Succeeded(reply) ==> !editing && (reply.user.Some? ==>
        session.user == reply.user && session.isAuthenticated && session.stored == reply.user)
      ensures !(sent && Succeeded(reply)) ==> editing == old(editing)
      ensures !(sent && Succeeded(reply)) ==> (session.user == old(session.user)
        && session.isAuthenticated == old(session.isAuthenticated) && session.stored == old(session.stored))
      ensures reply.ProfileReplied? && reply.user.None? ==> session.user == old(session.user)
      ensures sent ==> !saving
      ensures !sent ==> saving == old(saving)
      ensures session.loading == old(session.loading)
      ensures uploading == old(uploading) && chosenFile == old(chosenFile)
    {
      if session.user.None? {
        return false;
      }
      sent := true;
      saving := true;
      if Succeeded(reply) {
        session.UpdateUser(reply.user);
        editing := false;
      }
      saving := false;
    }

    /** handleImageUpload: the chosen file is checked first; a refused file clears the input
        without a request. An accepted file is uploaded, a successful upload hands the server's
        user to the session, and the input is cleared after every attempt. */
    method HandleImageUpload(session: Auth.Session, reply: ProfileReply) returns (check: UploadCheck)
      modifies this, session
      ensures check == CheckUpload(old(chosenFile))
      ensures check == NoFile ==> chosenFile == old(chosenFile)
      ensures check != NoFile ==> chosenFile.None?
      ensures check == Accepted && Succeeded(reply) && reply.user.Some? ==>
        session.user == reply.user && session.isAuthenticated && session.stored == reply.user
      ensures !(check == Accepted && Succeeded(reply)) ==> (session.user == old(session.user)
        && session.isAuthenticated == old(session.isAuthenticated) && session.stored == old(session.stored))
      ensures check == Accepted ==> !uploading
      ensures check != Accepted ==> uploading == old(uploading)
      ensures session.loading == old(session.loading)
      ensures editing == old(editing) && saving == old(saving)
    {
      check := CheckUpload(chosenFile);
      if check == NoFile {
        return;
      }
      if check != Accepted {
        chosenFile := None;
        return;
      }
      uploading := true;
      if Succeeded(reply) {
        session.UpdateUser(reply.user);
      }
      uploading := false;
      chosenFile := None;
    }

    /** handleDeletePicture: nothing unless the user confirms; a successful removal hands the
        server's user to the session. */
    method HandleDeletePicture(session: Auth.Session, confirmed: bool, reply: ProfileReply)
      modifies this, session
      ensures confirmed && Succeeded(reply) && reply.user.Some? ==>
        session.user == reply.user && session.isAuthenticated && session.stored == reply.user
      ensures !(confirmed && Succeeded(reply)) ==> (session.user == old(session.user)
        && session.isAuthenticated == old(session.isAuthenticated) && session.stored == old(session.stored))
      ensures confirmed ==> !uploading
      ensures !confirmed ==> uploading == old(uploading)
      ensures session.loading == old(session.loading)
      ensures editing == old(editing) && saving == old(saving) && chosenFile == old(chosenFile)
    {
      if !confirmed {
        return;
      }
      uploading := true;
      if Succeeded(reply) {
        session.UpdateUser(reply.user);
      }
      uploading := false;
    }
  }
}
