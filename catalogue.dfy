/**
 * The message catalogue: the audio files listed in the Google Drive folder,
 * turned into the messages the server plays (the `files.map` step of
 * `loadMessagesFromGoogleDrive`).
 */
module Catalogue {
  import opened Wrappers

  /** One entry of the `drive.files.list` response (fields `id, name, mimeType`). */
  datatype DriveFile = DriveFile(id: string, name: string, mimeType: string)

  datatype Message = Message(id: string, name: string, url: string)

  const UrlPrefix: string := "https://drive.google.com/uc?id="
  const UrlSuffix: string := "&export=download"

  /** The direct-download link Drive serves for a file id. */
  function DownloadUrl(id: string): string {
    UrlPrefix + id + UrlSuffix
  }

  /** Reads the file id back out of a direct-download link. */
  function IdFromUrl(u: string): Option<string> {
    if |UrlPrefix| + |UrlSuffix| <= |u| && u[..|UrlPrefix|] == UrlPrefix && u[|u| - |UrlSuffix|..] == UrlSuffix
    then Some(u[|UrlPrefix|..|u| - |UrlSuffix|])
    else None
  }

  /** A download link determines the file it was built from. */
  lemma UrlRoundTrip(id: string)
    ensures IdFromUrl(DownloadUrl(id)) == Some(id)
  {
    var u := DownloadUrl(id);
    assert u[..|UrlPrefix|] == UrlPrefix;
    assert u[|u| - |UrlSuffix|..] == UrlSuffix;
    assert u[|UrlPrefix|..|u| - |UrlSuffix|] == id;
  }

  /** Distinct files get distinct links. */
  lemma DownloadUrlInjective(a: string, b: string)
    requires DownloadUrl(a) == DownloadUrl(b)
    ensures a == b
  {
    UrlRoundTrip(a);
    UrlRoundTrip(b);
  }

  function ToMessage(f: DriveFile): Message {
    Message(f.id, f.name, DownloadUrl(f.id))
  }

  /**
   * The catalogue built from a file listing: one message per file, in the
   * listing's order, keeping the id and name and linking to the download URL.
   */
  function ToMessages(files: seq<DriveFile>): (ms: seq<Message>)
    ensures |ms| == |files|
    ensures forall i :: 0 <= i < |files| ==>
      ms[i].id == files[i].id && ms[i].name == files[i].name && ms[i].url == DownloadUrl(files[i].id)
  {
    if files == [] then [] else [ToMessage(files[0])] + ToMessages(files[1..])
  }

  /** Every message's link leads back to that message's own id. */
  lemma CatalogueUrlsNameTheirFiles(files: seq<DriveFile>, i: int)
    requires 0 <= i < |files|
    ensures IdFromUrl(ToMessages(files)[i].url) == Some(ToMessages(files)[i].id)
  {
    UrlRoundTrip(files[i].id);
  }
}
