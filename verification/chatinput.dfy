/** The message composer of src/components/chat/ChatInput.jsx: the text,
    the selected image or file, the emoji picker and the alert, changed by
    the selection handlers, `insertEmoji` and `handleSend`. Uploads and the
    parent's send callbacks are parameters. */
module ChatInput {
  import opened Common

  /** A picked file: its name, size in bytes and MIME type. */
  datatype FileInfo = FileInfo(name: string, size: int, mime: string)

  datatype Alert = Alert(title: string, message: string)

  const MaxImageSize: int := 10 * 1024 * 1024
  const MaxFileSize: int := 50 * 1024 * 1024

  const ErrorTitle: string := "Lỗi"
  const ImageUploadTitle: string := "Lỗi upload ảnh"
  const FileUploadTitle: string := "Lỗi upload file"
  const ImageTooLarge: string := "Kích thước ảnh quá lớn. Vui lòng chọn ảnh nhỏ hơn 10MB"
  const FileTooLarge: string := "Kích thước file quá lớn. Vui lòng chọn file nhỏ hơn 50MB"
  const BadImageType: string := "Định dạng ảnh không được hỗ trợ. Vui lòng chọn ảnh JPG, PNG, GIF hoặc WebP"
  const ImageHandlerMissing: string := "Chức năng gửi ảnh chưa được cấu hình."
  const NoImageUrl: string := "Không nhận được URL ảnh sau khi upload"
  const ImageUploadDefault: string := "Lỗi khi upload ảnh. Vui lòng kiểm tra cấu hình Cloudinary và thử lại."
  const FileUploadDefault: string := "Lỗi khi upload file. Vui lòng thử lại."
  const SendFailed: string := "Có lỗi xảy ra khi gửi tin nhắn. Vui lòng thử lại."

  /** The image types the picker accepts (ChatInput.jsx:171). */
  predicate AllowedImageType(mime: string) {
    mime == "image/jpeg" || mime == "image/jpg" || mime == "image/png" || mime == "image/gif" || mime == "image/webp"
  }

  /** Why `handleImageSelect` (ChatInput.jsx:154-189) refuses a picked image,
      if it does: the size is checked before the type. */
  function ImageRejection(f: FileInfo): (r: Option<string>)
    ensures r.None? <==> f.size <= MaxImageSize && AllowedImageType(f.mime)
    ensures f.size > MaxImageSize ==> r == Some(ImageTooLarge)
    ensures f.size <= MaxImageSize && !AllowedImageType(f.mime) ==> r == Some(BadImageType)
  {
    if f.size > MaxImageSize then Some(ImageTooLarge)
    else if !AllowedImageType(f.mime) then Some(BadImageType)
    else None
  }

  /** A character the upload-path regex `[^a-zA-Z0-9.-]` leaves alone. */
  predicate PathChar(c: char) {
    ('a' <= c <= 'z') || ('A' <= c <= 'Z') || ('0' <= c <= '9') || c == '.' || c == '-'
  }

  /** `name.replace(/[^a-zA-Z0-9.-]/g, '_')` (ChatInput.jsx:97, 137). */
  function Sanitize(name: string): (r: string)
    ensures |r| == |name|
    ensures forall i :: 0 <= i < |name| ==> r[i] == if PathChar(name[i]) then name[i] else '_'
  {
    if name == [] then [] else [if PathChar(name[0]) then name[0] else '_'] + Sanitize(name[1..])
  }

  /** A sanitised name holds only path characters and underscores, and
      sanitising it again changes nothing. */
  lemma {:induction false} SanitizeIsIdempotent(name: string)
    ensures forall i :: 0 <= i < |Sanitize(name)| ==> PathChar(Sanitize(name)[i]) || Sanitize(name)[i] == '_'
    ensures Sanitize(Sanitize(name)) == Sanitize(name)
  {
    var r := Sanitize(name);
    var rr := Sanitize(r);
    assert forall i :: 0 <= i < |r| ==> rr[i] == r[i];
  }

  /** The upload path `${folder}/${Date.now()}_${sanitised name}`; `stamp` is
      the clock reading as text. */
  function UploadPath(folder: string, stamp: string, name: string): (p: string)
    ensures StartsWith(p, folder + "/" + stamp + "_")
    ensures |p| >= |name| && p[|p| - |name|..] == Sanitize(name)
    ensures forall i :: |p| - |name| <= i < |p| ==> PathChar(p[i]) || p[i] == '_'
  {
    folder + "/" + stamp + "_" + Sanitize(name)
  }

  /** What `handleSend` goes on to do (ChatInput.jsx:44-68). */
  datatype Choice = Ignore | SendImage | SendFile | SendText(text: string)

  function Choose(text: string, hasImage: bool, hasFile: bool, disabled: bool): Choice {
    if IsBlank(text) && !hasImage && !hasFile then Ignore
    else if disabled then Ignore
    else if hasImage then SendImage
    else if hasFile then SendFile
    else SendText(Trim(text))
  }

  /** A text of ideographic spaces, as a CJK input method types them, is
      blank: nothing is sent, and around a word the spaces are trimmed off. */
  lemma IdeographicSpaceIsBlank()
    ensures Choose("\U{3000}", false, false, false) == Ignore
    ensures Choose("hi\U{3000}", false, false, false) == SendText("hi")
  {
    assert IsSpace('\U{3000}');
    assert TrimStart("\U{3000}") == TrimStart("");
    assert TrimEnd("hi\U{3000}") == TrimEnd("hi");
    assert TrimStart("hi") == "hi";
  }

  /** Nothing is sent when disabled or when there is nothing to send; an
      image wins over a file, a file over the text; text goes out trimmed
      and never blank. */
  lemma {:induction false} ChoicePriority(text: string, hasImage: bool, hasFile: bool, disabled: bool)
    ensures var c := Choose(text, hasImage, hasFile, disabled);
            && (c.Ignore? <==> disabled || (IsBlank(text) && !hasImage && !hasFile))
            && (c.SendImage? <==> !disabled && hasImage)
            && (c.SendFile? <==> !disabled && !hasImage && hasFile)
            && (c.SendText? ==> c.text == Trim(text) && !IsBlank(c.text) && !hasImage && !hasFile)
  {
    TrimTwice(text);
  }

  /** What an upload did: it produced a URL (possibly empty) or threw with
      a message that may be empty. */
  datatype Upload = Uploaded(url: string) | UploadThrew(message: string)

  /** What reached the parent's callbacks. */
  datatype Sent =
    | NothingSent
    | TextSent(text: string)
    | ImageSent(url: string, name: string)
    | FileSent(url: string, name: string, size: int)

  class Composer {
    var messageText: string
    var showEmojiPicker: bool
    var selectedImage: Option<FileInfo>
    var selectedFile: Option<FileInfo>
    var alert: Option<Alert>

    constructor()
      ensures messageText == "" && !showEmojiPicker && selectedImage.None? && selectedFile.None? && alert.None?
    {
      messageText, showEmojiPicker := "", false;
      selectedImage, selectedFile, alert := None, None, None;
    }

    /** `handleImageSelect` (ChatInput.jsx:154-189): `resetInput` says whether
        the file input is cleared. */
    method SelectImage(file: Option<FileInfo>) returns (resetInput: bool)
      modifies this
      ensures file.None? ==> !resetInput && unchanged(this)
      ensures file.Some? ==> resetInput && messageText == old(messageText) && selectedFile == old(selectedFile)
      ensures file.Some? && ImageRejection(file.value).None? ==>
        selectedImage == file && alert == old(alert)
      ensures file.Some? && ImageRejection(file.value).Some? ==>
        selectedImage == old(selectedImage) && alert == Some(Alert(ErrorTitle, ImageRejection(file.value).value))
    {
      if file.None? {
        return false;
      }
      var f := file.value;
      if f.size > MaxImageSize {
        alert := Some(Alert(ErrorTitle, ImageTooLarge));
        return true;
      }
      if !AllowedImageType(f.mime) {
        alert := Some(Alert(ErrorTitle, BadImageType));
        return true;
      }
      selectedImage := file;
      resetInput := true;
    }

    /** `handleFileSelect` (ChatInput.jsx:191-209): only the size is checked. */
    method SelectFile(file: Option<FileInfo>) returns (resetInput: bool)
      modifies this
      ensures file.None? ==> !resetInput && unchanged(this)
      ensures file.Some? ==> resetInput && messageText == old(messageText) && selectedImage == old(selectedImage)
      ensures file.Some? && file.value.size <= MaxFileSize ==> selectedFile == file && alert == old(alert)
      ensures file.Some? && file.value.size > MaxFileSize ==>
        selectedFile == old(selectedFile) && alert == Some(Alert(ErrorTitle, FileTooLarge))
    {
      if file.None? {
        return false;
      }
      if file.value.size > MaxFileSize {
        alert := Some(Alert(ErrorTitle, FileTooLarge));
        return true;
      }
      selectedFile := file;
      resetInput := true;
    }

    /** `insertEmoji(emoji)` (ChatInput.jsx:211-215). */
    method InsertEmoji(emoji: string)
      modifies this
      ensures messageText == old(messageText) + emoji && !showEmojiPicker
      ensures selectedImage == old(selectedImage) && selectedFile == old(selectedFile) && alert == old(alert)
    {
      messageText := messageText + emoji;
      showEmojiPicker := false;
    }

    /** `handleSend` with `handleSendImage` and `handleSendFile`
        (ChatInput.jsx:44-152). `hasImageHandler` says whether `onSendImage`
        is given, `upload` is what the upload did, and `callbackError` the
        message the parent's send callback threw with, if it threw. */
    method Send(disabled: bool, hasImageHandler: bool, upload: Upload, callbackError: Option<string>) returns (sent: Sent)
      modifies this
      ensures var c := Choose(old(messageText), old(selectedImage).Some?, old(selectedFile).Some?, disabled);
        && (c.Ignore? ==> sent == NothingSent && unchanged(this))
        && (c.SendText? ==>
              && sent == TextSent(c.text) && messageText == ""
              && selectedImage == old(selectedImage) && selectedFile == old(selectedFile)
              && alert == (if callbackError.Some? then Some(Alert(ErrorTitle, SendFailed)) else old(alert)))
        && (c.SendImage? ==>
              && messageText == old(messageText) && selectedFile == old(selectedFile)
              && (sent != NothingSent <==> hasImageHandler && old(selectedImage).value.size <= MaxImageSize
                                           && upload.Uploaded? && upload.url != "")
              && (sent != NothingSent ==> sent == ImageSent(upload.url, old(selectedImage).value.name))
              && (sent != NothingSent && callbackError.None? ==> selectedImage.None? && alert == old(alert))
              && (sent == NothingSent || callbackError.Some? ==> selectedImage == old(selectedImage) && alert.Some?))
        && (c.SendFile? ==>
              && messageText == old(messageText) && selectedImage == old(selectedImage)
              && (sent != NothingSent <==> old(selectedFile).value.size <= MaxFileSize && upload.Uploaded?)
              && (sent != NothingSent ==> sent == FileSent(upload.url, old(selectedFile).value.name, old(selectedFile).value.size))
              && (sent != NothingSent && callbackError.None? ==> selectedFile.None? && alert == old(alert))
              && (sent == NothingSent || callbackError.Some? ==> selectedFile == old(selectedFile) && alert.Some?))
    {
      if IsBlank(messageText) && selectedImage.None? && selectedFile.None? {
        return NothingSent;
      }
      if disabled {
        return NothingSent;
      }
      if selectedImage.Some? {
        sent := SendSelectedImage(hasImageHandler, upload, callbackError);
      } else if selectedFile.Some? {
        sent := SendSelectedFile(upload, callbackError);
      } else {
        var textToSend := Trim(messageText);
        messageText := "";
        sent := TextSent(textToSend);
        if callbackError.Some? {
          alert := Some(Alert(ErrorTitle, SendFailed));
        }
      }
    }

    /** `handleSendImage` (ChatInput.jsx:70-121) once an image is selected and
        the input is enabled. */
    method SendSelectedImage(hasImageHandler: bool, upload: Upload, callbackError: Option<string>) returns (sent: Sent)
      requires selectedImage.Some?
      modifies this
      ensures messageText == old(messageText) && selectedFile == old(selectedFile)
      ensures !hasImageHandler ==> sent == NothingSent && alert == Some(Alert(ErrorTitle, ImageHandlerMissing))
      ensures hasImageHandler && old(selectedImage).value.size > MaxImageSize ==>
        sent == NothingSent && alert == Some(Alert(ErrorTitle, ImageTooLarge))
      ensures hasImageHandler && old(selectedImage).value.size <= MaxImageSize && upload.UploadThrew? ==>
        sent == NothingSent && alert == Some(Alert(ImageUploadTitle, if upload.message != "" then upload.message else ImageUploadDefault))
      ensures hasImageHandler && old(selectedImage).value.size <= MaxImageSize && upload == Uploaded("") ==>
        sent == NothingSent && alert == Some(Alert(ImageUploadTitle, NoImageUrl))
      ensures sent != NothingSent <==>
        hasImageHandler && old(selectedImage).value.size <= MaxImageSize && upload.Uploaded? && upload.url != ""
      ensures sent != NothingSent ==> sent == ImageSent(upload.url, old(selectedImage).value.name)
      ensures sent != NothingSent && callbackError.None? ==> selectedImage.None? && alert == old(alert)
      ensures sent != NothingSent && callbackError.Some? ==>
        selectedImage == old(selectedImage)
        && alert == Some(Alert(ImageUploadTitle, if callbackError.value != "" then callbackError.value else ImageUploadDefault))
      ensures sent == NothingSent ==> selectedImage == old(selectedImage)
    {
      if !hasImageHandler {
        alert := Some(Alert(ErrorTitle, ImageHandlerMissing));
        return NothingSent;
      }
      var image := selectedImage.value;
      if image.size > MaxImageSize {
        alert := Some(Alert(ErrorTitle, ImageTooLarge));
        return NothingSent;
      }
      match upload {
        case UploadThrew(m) =>
          alert := Some(Alert(ImageUploadTitle, if m != "" then m else ImageUploadDefault));
          sent := NothingSent;
        case Uploaded(url) =>
          if url == "" {
            alert := Some(Alert(ImageUploadTitle, NoImageUrl));
            return NothingSent;
          }
          sent := ImageSent(url, image.name);
          if callbackError.Some? {
            var m := callbackError.value;
            alert := Some(Alert(ImageUploadTitle, if m != "" then m else ImageUploadDefault));
          } else {
            selectedImage := None;
          }
      }
    }

    /** `handleSendFile` (ChatInput.jsx:123-152) once a file is selected and
        the input is enabled. */
    method SendSelectedFile(upload: Upload, callbackError: Option<string>) returns (sent: Sent)
      requires selectedFile.Some?
      modifies this
      ensures messageText == old(messageText) && selectedImage == old(selectedImage)
      ensures old(selectedFile).value.size > MaxFileSize ==> sent == NothingSent && alert == Some(Alert(ErrorTitle, FileTooLarge))
      ensures old(selectedFile).value.size <= MaxFileSize && upload.UploadThrew? ==>
        sent == NothingSent && alert == Some(Alert(FileUploadTitle, if upload.message != "" then upload.message else FileUploadDefault))
      ensures sent != NothingSent <==> old(selectedFile).value.size <= MaxFileSize && upload.Uploaded?
      ensures sent != NothingSent ==> sent == FileSent(upload.url, old(selectedFile).value.name, old(selectedFile).value.size)
      ensures sent != NothingSent && callbackError.None? ==> selectedFile.None? && alert == old(alert)
      ensures sent != NothingSent && callbackError.Some? ==>
        selectedFile == old(selectedFile)
        && alert == Some(Alert(FileUploadTitle, if callbackError.value != "" then callbackError.value else FileUploadDefault))
      ensures sent == NothingSent ==> selectedFile == old(selectedFile)
    {
      var file := selectedFile.value;
      if file.size > MaxFileSize {
        alert := Some(Alert(ErrorTitle, FileTooLarge));
        return NothingSent;
      }
      match upload {
        case UploadThrew(m) =>
          alert := Some(Alert(FileUploadTitle, if m != "" then m else FileUploadDefault));
          sent := NothingSent;
        case Uploaded(url) =>
          sent := FileSent(url, file.name, file.size);
          if callbackError.Some? {
            var m := callbackError.value;
            alert := Some(Alert(FileUploadTitle, if m != "" then m else FileUploadDefault));
          } else {
            selectedFile := None;
          }
      }
    }
  }
}
