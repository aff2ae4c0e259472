/**
 * The object paths of the storage buckets (`StoragePaths`). Every builder is
 * a template literal over its arguments; a parameter with a default takes the
 * default when the argument is undefined (`None`).
 */
module Storage {
  import opened Wrappers
  import opened Strings

  datatype GalleryCategory = GalleryPolygel | GalleryNailArt | GallerySeasonal
  datatype ProductImageCategory = ProductPolygel | ProductGelPolish | ProductDecorations
  datatype CertificateFile = BusinessLicense | TrainingCertificates
  datatype SystemAsset =
    | MainLogo | Favicon | InvoiceTemplate | EmailSignature | SocialMediaTemplates | PriceList

  function GalleryCategoryName(c: GalleryCategory): string {
    match c
    case GalleryPolygel => "polygel"
    case GalleryNailArt => "nail-art"
    case GallerySeasonal => "seasonal"
  }

  function ProductImageCategoryName(c: ProductImageCategory): string {
    match c
    case ProductPolygel => "polygel"
    case ProductGelPolish => "gel-polish"
    case ProductDecorations => "decorations"
  }

  function CertificateFileName(f: CertificateFile): string {
    match f
    case BusinessLicense => "business_license.pdf"
    case TrainingCertificates => "training_certificates.pdf"
  }

  /** The folder and file of a system asset, which its path joins with '/'. */
  function AssetSegments(a: SystemAsset): seq<string> {
    match a
    case MainLogo => ["logos", "main_logo.png"]
    case Favicon => ["logos", "favicon.ico"]
    case InvoiceTemplate => ["templates", "invoice_template.html"]
    case EmailSignature => ["templates", "email_signature.html"]
    case SocialMediaTemplates => ["marketing", "social_media_templates"]
    case PriceList => ["marketing", "price_list.pdf"]
  }

  /** The asset argument as written: folder, '/', file. */
  function AssetPath(a: SystemAsset): string {
    AssetSegments(a)[0] + "/" + AssetSegments(a)[1]
  }

  const DefaultAvatarFile := "avatar.jpg"
  const DefaultDbBackupFile := "full_backup.sql"
  const DefaultFileBackupFile := "media_backup.zip"

  function OrDefault(f: Option<string>, d: string): string {
    if f.Some? then f.value else d
  }

  // ---------------------------------------------------------------- builders

  function Avatar(userId: string, fileName: Option<string>): (r: string)
    ensures StartsWith(r, "avatars/") && EndsWith(r, OrDefault(fileName, DefaultAvatarFile))
  {
    "avatars/" + userId + "/" + OrDefault(fileName, DefaultAvatarFile)
  }

  function InspirationImage(appointmentId: string, fileName: string): (r: string)
    ensures StartsWith(r, "inspiration-images/") && EndsWith(r, fileName)
  {
    "inspiration-images/" + appointmentId + "/" + fileName
  }

  function ResultPhoto(appointmentId: string, fileName: string): (r: string)
    ensures StartsWith(r, "result-photos/") && EndsWith(r, fileName)
  {
    "result-photos/" + appointmentId + "/" + fileName
  }

  function ServiceGallery(category: GalleryCategory, fileName: string): (r: string)
    ensures StartsWith(r, "service-gallery/") && EndsWith(r, fileName)
  {
    "service-gallery/" + GalleryCategoryName(category) + "/" + fileName
  }

  function ProductImage(category: ProductImageCategory, fileName: string): (r: string)
    ensures StartsWith(r, "product-images/") && EndsWith(r, fileName)
  {
    "product-images/" + ProductImageCategoryName(category) + "/" + fileName
  }

  /** `${year}` renders the year in decimal. */
  function Invoice(year: int, month: string, fileName: string): (r: string)
    ensures StartsWith(r, "documents/invoices/") && EndsWith(r, fileName)
  {
    "documents/invoices/" + IntToString(year) + "/" + month + "/" + fileName
  }

  /** The only builder whose last argument is wrapped: `receipt_<n>.pdf`. */
  function Receipt(clientId: string, invoiceNumber: string): (r: string)
    ensures StartsWith(r, "documents/receipts/") && EndsWith(r, "receipt_" + invoiceNumber + ".pdf")
  {
    "documents/receipts/" + clientId + "/receipt_" + invoiceNumber + ".pdf"
  }

  function Certificate(fileName: CertificateFile): (r: string)
    ensures StartsWith(r, "documents/certificates/") && EndsWith(r, CertificateFileName(fileName))
  {
    "documents/certificates/" + CertificateFileName(fileName)
  }

  function SystemAssetPath(path: SystemAsset): (r: string)
    ensures StartsWith(r, "system-assets/") && EndsWith(r, AssetPath(path))
  {
    "system-assets/" + AssetPath(path)
  }

  function DbBackup(date: string, fileName: Option<string>): (r: string)
    ensures StartsWith(r, "backups/database/") && EndsWith(r, OrDefault(fileName, DefaultDbBackupFile))
  {
    "backups/database/" + date + "/" + OrDefault(fileName, DefaultDbBackupFile)
  }

  function FileBackup(date: string, fileName: Option<string>): (r: string)
    ensures StartsWith(r, "backups/files/") && EndsWith(r, OrDefault(fileName, DefaultFileBackupFile))
  {
    "backups/files/" + date + "/" + OrDefault(fileName, DefaultFileBackupFile)
  }

  function ExportFile(fileName: string): (r: string)
    ensures StartsWith(r, "backups/exports/") && EndsWith(r, fileName)
  {
    "backups/exports/" + fileName
  }

  // ---------------------------------------------------------------- reading paths back

  /** One call of a builder, with its arguments. */
  datatype PathRequest =
    | AvatarPath(userId: string, avatarFile: Option<string>)
    | InspirationImagePath(inspirationAppointment: string, inspirationFile: string)
    | ResultPhotoPath(resultAppointment: string, resultFile: string)
    | ServiceGalleryPath(galleryCategory: GalleryCategory, galleryFile: string)
    | ProductImagePath(productCategory: ProductImageCategory, productFile: string)
    | InvoicePath(year: int, month: string, invoiceFile: string)
    | ReceiptPath(clientId: string, invoiceNumber: string)
    | CertificatePath(certificate: CertificateFile)
    | SystemAssetRequest(asset: SystemAsset)
    | DbBackupPath(dbDate: string, dbFile: Option<string>)
    | FileBackupPath(filesDate: string, filesFile: Option<string>)
    | ExportFilePath(exportFile: string)

  function Build(p: PathRequest): string {
    match p
    case AvatarPath(u, f) => Avatar(u, f)
    case InspirationImagePath(a, f) => InspirationImage(a, f)
    case ResultPhotoPath(a, f) => ResultPhoto(a, f)
    case ServiceGalleryPath(c, f) => ServiceGallery(c, f)
    case ProductImagePath(c, f) => ProductImage(c, f)
    case InvoicePath(y, m, f) => Invoice(y, m, f)
    case ReceiptPath(c, n) => Receipt(c, n)
    case CertificatePath(f) => Certificate(f)
    case SystemAssetRequest(a) => SystemAssetPath(a)
    case DbBackupPath(d, f) => DbBackup(d, f)
    case FileBackupPath(d, f) => FileBackup(d, f)
    case ExportFilePath(f) => ExportFile(f)
  }

  /** The '/'-separated segments a request's path is made of. */
  function Segments(p: PathRequest): seq<string> {
    match p
    case AvatarPath(u, f) => ["avatars", u, OrDefault(f, DefaultAvatarFile)]
    case InspirationImagePath(a, f) => ["inspiration-images", a, f]
    case ResultPhotoPath(a, f) => ["result-photos", a, f]
    case ServiceGalleryPath(c, f) => ["service-gallery", GalleryCategoryName(c), f]
    case ProductImagePath(c, f) => ["product-images", ProductImageCategoryName(c), f]
    case InvoicePath(y, m, f) => ["documents", "invoices", IntToString(y), m, f]
    case ReceiptPath(c, n) => ["documents", "receipts", c, "receipt_" + n + ".pdf"]
    case CertificatePath(f) => ["documents", "certificates", CertificateFileName(f)]
    case SystemAssetRequest(a) => ["system-assets"] + AssetSegments(a)
    case DbBackupPath(d, f) => ["backups", "database", d, OrDefault(f, DefaultDbBackupFile)]
    case FileBackupPath(d, f) => ["backups", "files", d, OrDefault(f, DefaultFileBackupFile)]
    case ExportFilePath(f) => ["backups", "exports", f]
  }

  /** No argument of the request contains a '/'. */
  predicate SlashFree(p: PathRequest) {
    forall k :: 0 <= k < |Segments(p)| ==> '/' !in Segments(p)[k]
  }

  lemma Join2(a: string, b: string)
    ensures Join([a, b], '/') == a + "/" + b
  {
    assert Join([a, b], '/') == a + ['/'] + Join([b], '/');
  }

  lemma Join3(a: string, b: string, c: string)
    ensures Join([a, b, c], '/') == a + "/" + b + "/" + c
  {
    assert [a, b, c][1..] == [b, c];
    Join2(b, c);
  }

  lemma Join4(a: string, b: string, c: string, d: string)
    ensures Join([a, b, c, d], '/') == a + "/" + b + "/" + c + "/" + d
  {
    assert [a, b, c, d][1..] == [b, c, d];
    Join3(b, c, d);
  }

  lemma Join5(a: string, b: string, c: string, d: string, e: string)
    ensures Join([a, b, c, d, e], '/') == a + "/" + b + "/" + c + "/" + d + "/" + e
  {
    assert [a, b, c, d, e][1..] == [b, c, d, e];
    Join4(b, c, d, e);
  }

  lemma AvatarJoin(u: string, f: Option<string>)
    ensures Avatar(u, f) == Join(["avatars", u, OrDefault(f, DefaultAvatarFile)], '/')
    ensures Build(AvatarPath(u, f)) == Join(Segments(AvatarPath(u, f)), '/')
  {
    Join3("avatars", u, OrDefault(f, DefaultAvatarFile));
    assert "avatars/" == "avatars" + "/";
  }

  lemma InspirationImageJoin(a: string, f: string)
    ensures InspirationImage(a, f) == Join(["inspiration-images", a, f], '/')
    ensures Build(InspirationImagePath(a, f)) == Join(Segments(InspirationImagePath(a, f)), '/')
  {
    Join3("inspiration-images", a, f);
    assert "inspiration-images/" == "inspiration-images" + "/";
  }

  lemma ResultPhotoJoin(a: string, f: string)
    ensures ResultPhoto(a, f) == Join(["result-photos", a, f], '/')
    ensures Build(ResultPhotoPath(a, f)) == Join(Segments(ResultPhotoPath(a, f)), '/')
  {
    Join3("result-photos", a, f);
    assert "result-photos/" == "result-photos" + "/";
  }

  lemma ServiceGalleryJoin(c: GalleryCategory, f: string)
    ensures ServiceGallery(c, f) == Join(["service-gallery", GalleryCategoryName(c), f], '/')
    ensures Build(ServiceGalleryPath(c, f)) == Join(Segments(ServiceGalleryPath(c, f)), '/')
  {
    Join3("service-gallery", GalleryCategoryName(c), f);
    assert "service-gallery/" == "service-gallery" + "/";
  }

  lemma ProductImageJoin(c: ProductImageCategory, f: string)
    ensures ProductImage(c, f) == Join(["product-images", ProductImageCategoryName(c), f], '/')
    ensures Build(ProductImagePath(c, f)) == Join(Segments(ProductImagePath(c, f)), '/')
  {
    Join3("product-images", ProductImageCategoryName(c), f);
    assert "product-images/" == "product-images" + "/";
  }

  lemma InvoiceJoin(y: int, m: string, f: string)
    ensures Invoice(y, m, f) == Join(["documents", "invoices", IntToString(y), m, f], '/')
    ensures Build(InvoicePath(y, m, f)) == Join(Segments(InvoicePath(y, m, f)), '/')
  {
    Join5("documents", "invoices", IntToString(y), m, f);
    assert "documents/invoices/" == "documents" + "/" + "invoices" + "/";
  }

  lemma ReceiptJoin(c: string, n: string)
    ensures Receipt(c, n) == Join(["documents", "receipts", c, "receipt_" + n + ".pdf"], '/')
    ensures Build(ReceiptPath(c, n)) == Join(Segments(ReceiptPath(c, n)), '/')
  {
    Join4("documents", "receipts", c, "receipt_" + n + ".pdf");
    assert "documents/receipts/" == "documents" + "/" + "receipts" + "/";
    assert "/receipt_" == "/" + "receipt_";
  }

  lemma CertificateJoin(f: CertificateFile)
    ensures Certificate(f) == Join(["documents", "certificates", CertificateFileName(f)], '/')
    ensures Build(CertificatePath(f)) == Join(Segments(CertificatePath(f)), '/')
  {
    Join3("documents", "certificates", CertificateFileName(f));
    assert "documents/certificates/" == "documents" + "/" + "certificates" + "/";
  }

  lemma SystemAssetJoin(a: SystemAsset)
    ensures SystemAssetPath(a) == Join(["system-assets", AssetSegments(a)[0], AssetSegments(a)[1]], '/')
    ensures Build(SystemAssetRequest(a)) == Join(Segments(SystemAssetRequest(a)), '/')
  {
    Join3("system-assets", AssetSegments(a)[0], AssetSegments(a)[1]);
    assert Segments(SystemAssetRequest(a)) == ["system-assets", AssetSegments(a)[0], AssetSegments(a)[1]];
    assert "system-assets/" == "system-assets" + "/";
  }

  lemma DbBackupJoin(d: string, f: Option<string>)
    ensures DbBackup(d, f) == Join(["backups", "database", d, OrDefault(f, DefaultDbBackupFile)], '/')
    ensures Build(DbBackupPath(d, f)) == Join(Segments(DbBackupPath(d, f)), '/')
  {
    Join4("backups", "database", d, OrDefault(f, DefaultDbBackupFile));
    assert "backups/database/" == "backups" + "/" + "database" + "/";
  }

  lemma FileBackupJoin(d: string, f: Option<string>)
    ensures FileBackup(d, f) == Join(["backups", "files", d, OrDefault(f, DefaultFileBackupFile)], '/')
    ensures Build(FileBackupPath(d, f)) == Join(Segments(FileBackupPath(d, f)), '/')
  {
    Join4("backups", "files", d, OrDefault(f, DefaultFileBackupFile));
    assert "backups/files/" == "backups" + "/" + "files" + "/";
  }

  lemma ExportFileJoin(f: string)
    ensures ExportFile(f) == Join(["backups", "exports", f], '/')
    ensures Build(ExportFilePath(f)) == Join(Segments(ExportFilePath(f)), '/')
  {
    Join3("backups", "exports", f);
    assert "backups/exports/" == "backups" + "/" + "exports" + "/";
  }

  /** The image and invoice paths are their segments joined with '/'. */
  lemma MediaPathIsJoin(p: PathRequest)
    requires p.AvatarPath? || p.InspirationImagePath? || p.ResultPhotoPath? || p.ServiceGalleryPath?
      || p.ProductImagePath? || p.InvoicePath?
    ensures Build(p) == Join(Segments(p), '/')
  {
    match p
    case AvatarPath(u, f) => AvatarJoin(u, f);
    case InspirationImagePath(a, f) => InspirationImageJoin(a, f);
    case ResultPhotoPath(a, f) => ResultPhotoJoin(a, f);
    case ServiceGalleryPath(c, f) => ServiceGalleryJoin(c, f);
    case ProductImagePath(c, f) => ProductImageJoin(c, f);
    case InvoicePath(y, m, f) => InvoiceJoin(y, m, f);
  }

  /** The receipt, certificate, system-asset and backup paths are their segments joined with '/'. */
  lemma ArchivePathIsJoin(p: PathRequest)
    requires p.ReceiptPath? || p.CertificatePath? || p.SystemAssetRequest? || p.DbBackupPath?
      || p.FileBackupPath? || p.ExportFilePath?
    ensures Build(p) == Join(Segments(p), '/')
  {
    match p
    case ReceiptPath(c, n) => ReceiptJoin(c, n);
    case CertificatePath(f) => CertificateJoin(f);
    case SystemAssetRequest(a) => SystemAssetJoin(a);
    case DbBackupPath(d, f) => DbBackupJoin(d, f);
    case FileBackupPath(d, f) => FileBackupJoin(d, f);
    case ExportFilePath(f) => ExportFileJoin(f);
  }

  /** Every path is its segments joined with '/'. */
  lemma BuildIsJoin(p: PathRequest)
    ensures Build(p) == Join(Segments(p), '/')
  {
    if p.AvatarPath? || p.InspirationImagePath? || p.ResultPhotoPath? || p.ServiceGalleryPath?
      || p.ProductImagePath? || p.InvoicePath? {
      MediaPathIsJoin(p);
    } else {
      ArchivePathIsJoin(p);
    }
  }

  /** With slash-free arguments a path splits back into exactly its segments. */
  lemma PathSplitsBack(p: PathRequest)
    requires SlashFree(p)
    ensures Split(Build(p), '/') == Segments(p)
  {
    BuildIsJoin(p);
    SplitJoin(Segments(p), '/');
  }

  /** With slash-free arguments, requests with different segments never share a path. */
  lemma BuildInjective(p: PathRequest, q: PathRequest)
    requires SlashFree(p) && SlashFree(q)
    requires Build(p) == Build(q)
    ensures Segments(p) == Segments(q)
  {
    PathSplitsBack(p);
    PathSplitsBack(q);
  }
}
