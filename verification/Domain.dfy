/** The gig write model's entities and errors. */
module Domain {
  import opened Wrappers
  import opened ChildTable

  datatype Status = Draft | Published | Paused | Archived

  /** One row of table `gigs`, without row timestamps. */
  datatype GigRow = GigRow(
    id: string,
    freelancerId: string,
    sellerUsername: string,
    slug: string,
    title: string,
    shortInfo: string,
    description: string,
    categoryId: int,
    currency: string,
    status: Status,
    basicInfoCompleted: bool,
    packagesCompleted: bool,
    requirementsCompleted: bool,
    mediaCompleted: bool,
    pictureFileId: string,
    publishedAt: Option<int>)

  datatype PackageData = PackageData(tier: string, description: string, deliveryDays: int, priceCents: int)

  type PackageRow = Child<PackageData>

  /** A question's value is its content. */
  type QuestionRow = Child<string>

  /** A media row's value is its file id. */
  type MediaRow = Child<string>

  /** A gig as loaded: its row and its ordered child rows. */
  datatype Gig = Gig(row: GigRow, packages: seq<PackageRow>, questions: seq<QuestionRow>, media: seq<MediaRow>)

  const TIER_BASIC := "basic"
  const TIER_STANDARD := "standard"
  const TIER_PREMIUM := "premium"

  datatype Error =
    | InvalidGigID
    | InvalidFreelancerID
    | InvalidTitle
    | InvalidShortInfo
    | InvalidDescription
    | InvalidCategoryID
    | InvalidCurrency
    | InvalidPackageCount
    | InvalidPackageTier
    | InvalidPackageID
    | InvalidPackageDescription
    | InvalidPackageDeliveryDays
    | InvalidPackagePriceCents
    | InvalidQuestionContent
    | InvalidQuestionID
    | InvalidMediaUpload
    | UploadFailure
    | GigNotFound
    | GigAlreadyPublished
    | GigDraftIncomplete
    | ConnectUnavailable
    | ConnectOnboardingIncomplete
    | StorageFailure
    | EventPublishFailure
    | Malformed
    | Unsupported
    | MissingAggregateID
}
