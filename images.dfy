/**
 * The file-based image service: upload validation and the stored file's
 * name and address, per-category bucketing of a consultation's images, the
 * progress-to-status rule, the required photo counts and the category
 * registry with its sub-categories.
 */
module Images {
  import opened Outcomes
  import opened Bson
  import Models

  type Bytes = seq<bv8>

  const UploadDir: string := "uploads"
  const MaxFileSize: nat := 10 * 1024 * 1024
  const AllowedMimeTypes: seq<string> := ["image/jpeg", "image/jpg", "image/png", "image/webp"]

  /**
   * `_validate_file`: size first, then the mime type, then whether the
   * imaging library can open the bytes (`decodes`, decided outside the model).
   */
  function ValidateFile(content: Bytes, mimeType: string, decodes: bool): (ok: bool)
    ensures ok ==> |content| <= MaxFileSize && mimeType in AllowedMimeTypes && decodes
    ensures |content| > MaxFileSize || mimeType !in AllowedMimeTypes || !decodes ==> !ok
  {
    if |content| > MaxFileSize then false
    else if mimeType !in AllowedMimeTypes then false
    else decodes
  }

  predicate StartsWith(s: string, p: string)
  {
    |p| <= |s| && s[..|p|] == p
  }

  /**
   * The size limit is inclusive: a decodable file of exactly 10 MiB with an
   * allowed type passes and one byte more fails; a type that is not an
   * `image/` type never passes.
   */
  lemma ValidateFileBoundary(content: Bytes, mimeType: string, decodes: bool)
    ensures |content| == 10485760 && mimeType in AllowedMimeTypes && decodes ==> ValidateFile(content, mimeType, decodes)
    ensures |content| == 10485761 ==> !ValidateFile(content, mimeType, decodes)
    ensures !StartsWith(mimeType, "image/") ==> !ValidateFile(content, mimeType, decodes)
  {
    if mimeType in AllowedMimeTypes {
      FileExtensionFollowsSubtype(mimeType);
    }
  }

  /** `_get_file_extension`: a lookup with ".jpg" as the default. */
  function FileExtension(mimeType: string): (ext: string)
    ensures ext == ".jpg" || ext == ".png" || ext == ".webp"
    ensures mimeType !in AllowedMimeTypes ==> ext == ".jpg"
  {
    if mimeType == "image/jpeg" then ".jpg"
    else if mimeType == "image/jpg" then ".jpg"
    else if mimeType == "image/png" then ".png"
    else if mimeType == "image/webp" then ".webp"
    else ".jpg"
  }

  /**
   * For every accepted type the extension is the sub-type after "image/",
   * with "jpeg" shortened to "jpg".
   */
  lemma FileExtensionFollowsSubtype(mimeType: string)
    requires mimeType in AllowedMimeTypes
    ensures StartsWith(mimeType, "image/")
    ensures var sub := mimeType[6..];
      FileExtension(mimeType) == "." + (if sub == "jpeg" then "jpg" else sub)
  {
    var i :| 0 <= i < 4 && AllowedMimeTypes[i] == mimeType;
    if i == 0 {
      assert mimeType[6..] == "jpeg";
    } else if i == 1 {
      assert mimeType[6..] == "jpg";
    } else if i == 2 {
      assert mimeType[6..] == "png";
    } else {
      assert mimeType[6..] == "webp";
    }
  }

  /** `os.path.join(a, b)` on POSIX: an absolute `b` replaces `a`. */
  function PathJoin(a: string, b: string): string
  {
    if |b| > 0 && b[0] == '/' then b
    else if a == "" || a[|a| - 1] == '/' then a + b
    else a + "/" + b
  }

  /** Where the file is written: `uploads/<consultation>/<category>/<name>`. */
  function FilePath(consultationId: string, category: string, filename: string): string
  {
    PathJoin(PathJoin(PathJoin(UploadDir, consultationId), category), filename)
  }

  /** The address handed back for the file. */
  function ImageUrl(consultationId: string, category: string, filename: string): string
  {
    "/uploads/" + consultationId + "/" + category + "/" + filename
  }

  /** A path component that `os.path.join` neither resets at nor merges. */
  predicate PlainSegment(s: string)
  {
    |s| > 0 && s[0] != '/' && s[|s| - 1] != '/'
  }

  /**
   * For plain consultation ids, categories and file names the returned
   * address is the written path made absolute, so it names the same file.
   */
  lemma {:induction false} UrlNamesWrittenFile(consultationId: string, category: string, filename: string)
    requires PlainSegment(consultationId) && PlainSegment(category) && PlainSegment(filename)
    ensures ImageUrl(consultationId, category, filename) == "/" + FilePath(consultationId, category, filename)
  {
    var p1 := PathJoin(UploadDir, consultationId);
    assert p1 == "uploads/" + consultationId;
    var p2 := PathJoin(p1, category);
    assert p1[|p1| - 1] == consultationId[|consultationId| - 1];
    assert p2 == "uploads/" + consultationId + "/" + category;
    var p3 := PathJoin(p2, filename);
    assert p2[|p2| - 1] == category[|category| - 1];
    assert p3 == "uploads/" + consultationId + "/" + category + "/" + filename;
  }

  /** The stored image document (its `uploaded_at` timestamp left out). */
  datatype ImageRecord = ImageRecord(
    id: string, consultationId: string, category: string, subCategory: string,
    imageUrl: string, imagePath: string, fileName: string, fileSize: nat,
    mimeType: string, userNotes: Option<string>, status: string, uploadSessionId: string)

  datatype UploadResponse = UploadResponse(
    success: bool, imageId: Option<string>, imageUrl: Option<string>,
    uploadSessionId: Option<string>, message: string)

  const InvalidFileResponse := UploadResponse(false, None, None, None, "Invalid file type or size")

  /**
   * The files on disk, the image collection, and the two consultation
   * fields the service writes. `upload_image` writes one file and inserts
   * one record; the unique file name and the upload session id are fresh
   * UUIDs and the record id is the database's, all passed in. `status`
   * holds the status of each existing consultation, keyed by its id.
   */
  class ImageService {
    var files: map<string, Bytes>
    var records: seq<ImageRecord>
    var status: map<string, string>
    var imagesCompleted: map<string, bool>

    constructor (consultations: map<string, string>)
      ensures files == map[] && records == []
      ensures status == consultations && imagesCompleted == map[]
    {
      files := map[];
      records := [];
      status := consultations;
      imagesCompleted := map[];
    }

    /**
     * `upload_image`: an invalid file is refused before anything is
     * written; a valid one is saved under `<uuid><ext>` in its category
     * folder, recorded as "pending", and its address is returned. The
     * progress update that follows reads the images back through
     * `get_consultation_images`, which fails on the record just stored
     * (`AsWrittenDropsStoredImages`), so the report is `{}` and an existing
     * consultation is marked "images_uploaded" with `images_completed` set.
     * An update of a consultation that does not exist matches nothing.
     */
    method UploadImage(consultationId: string, category: string, subCategory: string,
                       content: Bytes, fileName: string, mimeType: string, userNotes: Option<string>,
                       decodes: bool, fileUuid: string, sessionUuid: string, insertedId: string)
      returns (r: UploadResponse)
      modifies this
      ensures !ValidateFile(content, mimeType, decodes) ==>
        && r == InvalidFileResponse && files == old(files) && records == old(records)
        && status == old(status) && imagesCompleted == old(imagesCompleted)
      ensures ValidateFile(content, mimeType, decodes) ==>
        var name := fileUuid + FileExtension(mimeType);
        var path := FilePath(consultationId, category, name);
        var url := ImageUrl(consultationId, category, name);
        && files == old(files)[path := content]
        && records == old(records) + [ImageRecord(insertedId, consultationId, category, subCategory,
                                                  url, path, fileName, |content|, mimeType, userNotes,
                                                  "pending", sessionUuid)]
        && r == UploadResponse(true, Some(insertedId), Some(url), Some(sessionUuid), "Image uploaded successfully")
      ensures ValidateFile(content, mimeType, decodes) && consultationId in old(status) ==>
        status == old(status)[consultationId := "images_uploaded"] && imagesCompleted == old(imagesCompleted)[consultationId := true]
      ensures ValidateFile(content, mimeType, decodes) && consultationId !in old(status) ==>
        status == old(status) && imagesCompleted == old(imagesCompleted)
    {
      if !ValidateFile(content, mimeType, decodes) {
        return InvalidFileResponse;
      }
      var name := fileUuid + FileExtension(mimeType);
      var path := FilePath(consultationId, category, name);
      files := files[path := content];
      var rec := ImageRecord(insertedId, consultationId, category, subCategory,
                             ImageUrl(consultationId, category, name), path, fileName, |content|,
                             mimeType, userNotes, "pending", sessionUuid);
      UploadLeavesNoProgress(records, rec, consultationId in status);
      records := records + [rec];
      var gathered := StoredImagesAsWritten(consultationId in status, ForConsultation(records, consultationId));
      assert gathered == None;
      var update := ProgressStatusUpdate(NoProgress);
      if consultationId in status {
        status := status[consultationId := update.status];
        imagesCompleted := imagesCompleted[consultationId := update.imagesCompleted];
      }
      r := UploadResponse(true, Some(insertedId), Some(rec.imageUrl), Some(sessionUuid), "Image uploaded successfully");
    }
  }

  /** `find({"consultation_id": ...})`: the stored images of one consultation, in their stored order. */
  function ForConsultation(images: seq<ImageRecord>, consultationId: string): (r: seq<ImageRecord>)
    ensures |r| <= |images|
    ensures forall i :: 0 <= i < |r| ==> r[i].consultationId == consultationId && r[i] in images
  {
    if images == [] then []
    else
      var last := images[|images| - 1];
      ForConsultation(images[..|images| - 1], consultationId) + (if last.consultationId == consultationId then [last] else [])
  }

  /** A record just appended is among its consultation's images. */
  lemma ForConsultationKeepsLast(images: seq<ImageRecord>, rec: ImageRecord)
    ensures ForConsultation(images + [rec], rec.consultationId) != []
    ensures ForConsultation(images + [rec], rec.consultationId)[|ForConsultation(images + [rec], rec.consultationId)| - 1] == rec
  {
    assert (images + [rec])[..|images|] == images;
  }

  /**
   * The document `find` returns for a stored record: the database's
   * ObjectId under `_id`, then the fields `upload_image` inserts
   * (`uploaded_at` left out).
   */
  function StoredDocument(rec: ImageRecord): Value
  {
    Dict([("_id", Oid(ObjectId(rec.id))), ("consultation_id", Str(rec.consultationId)),
          ("category", Str(rec.category)), ("sub_category", Str(rec.subCategory)),
          ("image_url", Str(rec.imageUrl)), ("image_path", Str(rec.imagePath)),
          ("file_name", Str(rec.fileName)), ("file_size", Int(rec.fileSize)),
          ("mime_type", Str(rec.mimeType)),
          ("user_notes", if rec.userNotes.Some? then Str(rec.userNotes.value) else Null),
          ("status", Str(rec.status)), ("upload_session_id", Str(rec.uploadSessionId))])
  }

  /**
   * `ConsultationImage(**image)` refuses every record `upload_image`
   * stores: it has no `image_type`, and its `_id` is an ObjectId where a
   * string or `None` is required.
   */
  lemma StoredRecordRejected(rec: ImageRecord)
    ensures Models.StrField(StoredDocument(rec).entries, "image_type") == None
    ensures Models.OptStrField(StoredDocument(rec).entries, "_id") == None
    ensures !Models.ImageValid(StoredDocument(rec))
  {
    var e := StoredDocument(rec).entries;
    GetMissing(e, "image_type");
    GetFirst(e, "_id", 0);
  }

  const CategoryKeys: seq<string> := ["outdoor_unit", "power_hub", "command_center", "indoor_system", "energy_bill"]

  /** A consultation's images sorted into the five per-category lists. */
  datatype Buckets = Buckets(
    outdoorUnit: seq<ImageRecord>, powerHub: seq<ImageRecord>, commandCenter: seq<ImageRecord>,
    indoorSystem: seq<ImageRecord>, energyBill: seq<ImageRecord>)

  /** The images of category `c`, in their stored order. */
  function InCategory(images: seq<ImageRecord>, c: string): seq<ImageRecord>
  {
    if images == [] then []
    else
      var last := images[|images| - 1];
      InCategory(images[..|images| - 1], c) + (if last.category == c then [last] else [])
  }

  /** The images whose category is none of the five. */
  function Uncategorised(images: seq<ImageRecord>): seq<ImageRecord>
  {
    if images == [] then []
    else
      var last := images[|images| - 1];
      Uncategorised(images[..|images| - 1]) + (if last.category in CategoryKeys then [] else [last])
  }

  function Bucketed(images: seq<ImageRecord>): Buckets
  {
    Buckets(InCategory(images, "outdoor_unit"), InCategory(images, "power_hub"),
            InCategory(images, "command_center"), InCategory(images, "indoor_system"),
            InCategory(images, "energy_bill"))
  }

  /**
   * A bucket holds exactly the images of its category, each as often as
   * it was stored, and no other image.
   */
  lemma {:induction false} InCategorySpec(images: seq<ImageRecord>, c: string)
    ensures forall x :: multiset(InCategory(images, c))[x] == (if x.category == c then multiset(images)[x] else 0)
  {
    if images != [] {
      var front := images[..|images| - 1];
      var last := images[|images| - 1];
      InCategorySpec(front, c);
      assert images == front + [last];
      assert multiset(images) == multiset(front) + multiset{last};
    }
  }

  /**
   * Every stored image is in exactly one bucket or among the dropped ones:
   * the five bucket sizes and the dropped count add up to the total.
   */
  lemma {:induction false} BucketsCoverAll(images: seq<ImageRecord>)
    ensures var b := Bucketed(images);
      |b.outdoorUnit| + |b.powerHub| + |b.commandCenter| + |b.indoorSystem| + |b.energyBill|
        + |Uncategorised(images)| == |images|
  {
    if images != [] {
      BucketsCoverAll(images[..|images| - 1]);
    }
  }

  /**
   * `get_consultation_images` as intended: `None` when the consultation
   * does not exist; otherwise one pass over the images appends each to the
   * list of its category, and an image of any other category is skipped.
   * The code as written never gets this far for a stored image
   * (`StoredImagesAsWritten`).
   */
  method GetConsultationImages(consultationExists: bool, images: seq<ImageRecord>) returns (r: Option<Buckets>)
    ensures !consultationExists ==> r == None
    ensures consultationExists ==> r == Some(Bucketed(images))
  {
    if !consultationExists {
      return None;
    }
    var b := Buckets([], [], [], [], []);
    for i := 0 to |images|
      invariant b == Bucketed(images[..i])
    {
      var image := images[i];
      assert images[..i + 1][..i] == images[..i];
      if image.category == "outdoor_unit" {
        b := b.(outdoorUnit := b.outdoorUnit + [image]);
      } else if image.category == "power_hub" {
        b := b.(powerHub := b.powerHub + [image]);
      } else if image.category == "command_center" {
        b := b.(commandCenter := b.commandCenter + [image]);
      } else if image.category == "indoor_system" {
        b := b.(indoorSystem := b.indoorSystem + [image]);
      } else if image.category == "energy_bill" {
        b := b.(energyBill := b.energyBill + [image]);
      }
    }
    assert images[..|images|] == images;
    r := Some(b);
  }

  /**
   * `get_consultation_images` as written. Each stored document goes
   * through `ConsultationImage(**image)` before its category is read; a
   * document that fails validation raises, and one that passed would have
   * no `category` attribute, which raises too. The `except` turns either
   * into `None`, so the loop never gets past its first image.
   */
  function StoredImagesAsWritten(consultationExists: bool, images: seq<ImageRecord>): (r: Option<Buckets>)
    ensures r.Some? ==> consultationExists && images == [] && r.value == Bucketed(images)
  {
    if !consultationExists then None
    else if exists i :: 0 <= i < |images| && !Models.ImageValid(StoredDocument(images[i])) then None
    else if images != [] then None
    else Some(Buckets([], [], [], [], []))
  }

  /**
   * As written, only a consultation without stored images gets its
   * (empty) buckets: any image `upload_image` stored fails the conversion.
   */
  lemma AsWrittenDropsStoredImages(consultationExists: bool, images: seq<ImageRecord>)
    ensures StoredImagesAsWritten(consultationExists, images).Some? <==> consultationExists && images == []
    ensures images != [] ==> !Models.ImageValid(StoredDocument(images[0]))
  {
    if images != [] {
      StoredRecordRejected(images[0]);
    }
  }

  /** Read back after an upload, the consultation's images give no progress report. */
  lemma UploadLeavesNoProgress(images: seq<ImageRecord>, rec: ImageRecord, consultationExists: bool)
    ensures StoredImagesAsWritten(consultationExists, ForConsultation(images + [rec], rec.consultationId)) == None
  {
    ForConsultationKeepsLast(images, rec);
    AsWrittenDropsStoredImages(consultationExists, ForConsultation(images + [rec], rec.consultationId));
  }

  /** `all(...)` over a list of flags. */
  function AllTrue(flags: seq<bool>): (r: bool)
    ensures r <==> forall i :: 0 <= i < |flags| ==> flags[i]
  {
    if flags == [] then true else flags[0] && AllTrue(flags[1..])
  }

  /**
   * What `_update_consultation_progress` reads: the progress report is
   * `{}` when the images could not be gathered, and otherwise carries the
   * per-category completion flags.
   */
  datatype Progress = NoProgress | Progress(completionFlags: seq<bool>)

  datatype StatusUpdate = StatusUpdate(imagesCompleted: bool, status: string)

  function ProgressStatusUpdate(p: Progress): (u: StatusUpdate)
    ensures u.status == "images_uploaded" || u.status == "answers_submitted"
    ensures u.imagesCompleted <==> u.status == "images_uploaded"
  {
    var flags := if p.NoProgress? then [] else p.completionFlags;
    StatusUpdate(AllTrue(flags), if AllTrue(flags) then "images_uploaded" else "answers_submitted")
  }

  /**
   * The status becomes "images_uploaded" exactly when every completion
   * flag is set, which includes the empty report; otherwise it is set back
   * to "answers_submitted".
   */
  lemma ProgressStatusSpec(p: Progress)
    ensures ProgressStatusUpdate(p).status == "images_uploaded" <==>
      p.NoProgress? || forall i :: 0 <= i < |p.completionFlags| ==> p.completionFlags[i]
    ensures p.NoProgress? ==> ProgressStatusUpdate(p) == StatusUpdate(true, "images_uploaded")
  {
  }

  /** The photo counts `get_consultation_progress` reports as required. */
  function RequiredCount(category: string): Option<nat>
  {
    if category == "outdoor_unit" then Some(2)
    else if category == "power_hub" then Some(2)
    else if category == "command_center" then Some(1)
    else if category == "indoor_system" then Some(1)
    else if category == "energy_bill" then Some(1)
    else None
  }

  datatype SubCategory = SubCategory(key: string, displayName: string, description: string, tip: string)

  datatype CategoryInfo = CategoryInfo(
    category: string, displayName: string, discountAmount: nat, description: string,
    whyWeNeedThis: string, subCategories: seq<SubCategory>)

  /** `get_hvac_image_categories`: the five categories and their photos. */
  const Registry: seq<CategoryInfo> := [
    CategoryInfo(
      "outdoor_unit", "The Outdoor Unit (AC or Heat Pump)", 150,
      "These photos tell us the age, size, efficiency, and condition of your system.",
      "This is crucial for us to understand your system's efficiency and overall condition.",
      [SubCategory("big_picture", "Big Picture", "Photo from 10–15 ft showing the whole outdoor unit.",
                   "Make sure to capture surroundings too."),
       SubCategory("data_plate", "Data Plate", "Close photo of model/serial sticker.", "Wipe it clean if dirty.")]),
    CategoryInfo(
      "power_hub", "The Power Hub (Breaker Panel)", 50,
      "Understand your home's electrical capacity for safe installation.",
      "Ensures your home can safely handle modern upgrades.",
      [SubCategory("panel_cover", "Panel Cover", "Closed breaker panel with brand visible.", "Stand back 3–4 feet."),
       SubCategory("inside_panel", "Inside Panel", "Open panel showing breakers.", "Use flash for clarity.")]),
    CategoryInfo(
      "command_center", "Command Center (Thermostat)", 25,
      "Helps us recommend the best smart thermostat upgrades.",
      "Shows how you control your system.",
      [SubCategory("main_thermostat", "Main Thermostat", "Photo of your main thermostat.", "Capture the display clearly.")]),
    CategoryInfo(
      "indoor_system", "Indoor System", 500,
      "Helps us understand your air handler/furnace.",
      "Tells us about indoor air movement and heating/cooling compatibility.",
      [SubCategory("indoor_unit", "Indoor Unit", "Photo of air handler/furnace.", "Include labels if visible.")]),
    CategoryInfo(
      "energy_bill", "Energy Bill", 200,
      "Shows your current usage to estimate savings.",
      "Helps us project efficiency improvements.",
      [SubCategory("recent_bill", "Recent Bill", "Photo of your latest energy bill.",
                   "Ensure account # and kWh usage are visible.")])
  ]

  /** All sub-category keys, category by category. */
  function SubCategoryKeys(reg: seq<CategoryInfo>): seq<string>
  {
    if reg == [] then []
    else seq(|reg[0].subCategories|, i requires 0 <= i < |reg[0].subCategories| => reg[0].subCategories[i].key)
         + SubCategoryKeys(reg[1..])
  }

  predicate Distinct(s: seq<string>)
  {
    forall i, j :: 0 <= i < j < |s| ==> s[i] != s[j]
  }

  /**
   * The registry lists the five categories in order with discounts
   * 150/50/25/500/200, and the category keys are distinct.
   */
  lemma RegistryFacts()
    ensures |Registry| == 5
    ensures forall i :: 0 <= i < 5 ==> Registry[i].category == CategoryKeys[i]
    ensures Distinct(CategoryKeys)
    ensures [Registry[0].discountAmount, Registry[1].discountAmount, Registry[2].discountAmount,
             Registry[3].discountAmount, Registry[4].discountAmount] == [150, 50, 25, 500, 200]
  {
  }

  /** The registry declares seven sub-categories, listed here in order. */
  lemma SubCategoryKeysListed()
    ensures SubCategoryKeys(Registry) == ["big_picture", "data_plate", "panel_cover", "inside_panel",
                                          "main_thermostat", "indoor_unit", "recent_bill"]
  {
    assert SubCategoryKeys(Registry[4..]) == ["recent_bill"];
    assert SubCategoryKeys(Registry[3..]) == ["indoor_unit", "recent_bill"];
    assert SubCategoryKeys(Registry[2..]) == ["main_thermostat", "indoor_unit", "recent_bill"];
    assert SubCategoryKeys(Registry[1..]) == ["panel_cover", "inside_panel", "main_thermostat", "indoor_unit", "recent_bill"];
  }

  /** No sub-category key is used by two sub-categories, across all categories. */
  lemma SubCategoryKeysDistinct()
    ensures Distinct(SubCategoryKeys(Registry))
  {
    SubCategoryKeysListed();
    SevenKeysDistinct(SubCategoryKeys(Registry));
  }

  lemma SevenKeysDistinct(keys: seq<string>)
    requires keys == ["big_picture", "data_plate", "panel_cover", "inside_panel",
                      "main_thermostat", "indoor_unit", "recent_bill"]
    ensures Distinct(keys)
  {
  }

  /**
   * The required count of each category is the number of sub-categories
   * the registry declares for it, and the five registry categories are the
   * only ones with a required count.
   */
  lemma RequiredCountsMatchRegistry(category: string)
    ensures RequiredCount(category).Some? <==> category in CategoryKeys
    ensures forall i :: 0 <= i < |Registry| ==> RequiredCount(Registry[i].category) == Some(|Registry[i].subCategories|)
  {
  }
}
