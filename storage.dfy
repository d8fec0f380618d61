/**
 * The S3 object key and URL `S3Service.upload_file` builds, and the way the
 * consultation router and the analyser get the key back from the URL.
 */
module Storage {
  import opened Text

  /** The object key: the folder of the consultation, then the file name. */
  function ObjectKey(folder: string, filename: string): string
  {
    folder + "/" + filename
  }

  /** The public URL of an object in `bucket` of `region`. */
  function ObjectUrl(bucket: string, region: string, key: string): (url: string)
    ensures |url| > |key| && url[|url| - |key| - 1..] == "/" + key
  {
    "https://" + bucket + ".s3." + region + ".amazonaws.com/" + key
  }

  /** The name under which the n-th image of a consultation is uploaded. */
  function ImageFilename(n: nat): string
  {
    "image_" + NatToString(n)
  }

  /** `os.path.basename(url.split("?")[0])`: the key name the analyse-all handler recovers. */
  function KeyNameFromUrl(url: string): (name: string)
    ensures '/' !in name && '?' !in name
  {
    Basename(BeforeFirst(url, '?'))
  }

  /** The key the analyser downloads for a recovered key name. */
  function DownloadKey(consultationId: string, name: string): string
  {
    consultationId + "/" + name
  }

  /** An image file name holds neither `/` nor `?`. */
  lemma ImageFilenameClean(n: nat)
    ensures '/' !in ImageFilename(n) && '?' !in ImageFilename(n)
  {
    var digits := NatToString(n);
    forall k | 0 <= k < |ImageFilename(n)| ensures ImageFilename(n)[k] != '/' && ImageFilename(n)[k] != '?' {
      if k >= 6 {
        assert ImageFilename(n)[k] == digits[k - 6];
      }
    }
  }

  /**
   * The round trip: the key name recovered from the URL of an uploaded
   * object is the uploaded file name, so the analyser downloads exactly the
   * key that was uploaded.
   */
  lemma UrlRoundTrip(bucket: string, region: string, folder: string, filename: string)
    requires '?' !in bucket && '?' !in region && '?' !in folder
    requires '?' !in filename && '/' !in filename
    ensures KeyNameFromUrl(ObjectUrl(bucket, region, ObjectKey(folder, filename))) == filename
    ensures DownloadKey(folder, KeyNameFromUrl(ObjectUrl(bucket, region, ObjectKey(folder, filename))))
            == ObjectKey(folder, filename)
  {
    var prefix := "https://" + bucket + ".s3." + region + ".amazonaws.com/" + folder;
    var url := ObjectUrl(bucket, region, ObjectKey(folder, filename));
    assert url == prefix + "/" + filename;
    assert '?' !in url;
    BeforeFirstAbsent(url, '?');
    BasenameAfterSlash(prefix, filename);
  }

  /** For image uploads in particular. */
  lemma ImageUrlRoundTrip(bucket: string, region: string, consultationId: string, n: nat)
    requires '?' !in bucket && '?' !in region && '?' !in consultationId
    ensures KeyNameFromUrl(ObjectUrl(bucket, region, ObjectKey(consultationId, ImageFilename(n)))) == ImageFilename(n)
  {
    ImageFilenameClean(n);
    UrlRoundTrip(bucket, region, consultationId, ImageFilename(n));
  }

  /** Two image numbers of one consultation share a key exactly when they are equal. */
  lemma ImageKeysDistinct(consultationId: string, m: nat, n: nat)
    ensures ObjectKey(consultationId, ImageFilename(m)) == ObjectKey(consultationId, ImageFilename(n)) <==> m == n
  {
    var head := consultationId + "/" + "image_";
    var a, b := ObjectKey(consultationId, ImageFilename(m)), ObjectKey(consultationId, ImageFilename(n));
    assert a == head + NatToString(m) && b == head + NatToString(n);
    if a == b {
      assert a[|head|..] == NatToString(m) && b[|head|..] == NatToString(n);
      NatToStringInjective(m, n);
    }
  }
}
