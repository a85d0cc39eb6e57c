/**
 * The records of the mobile application's type definitions: badges, vendors,
 * preferences, challenges and challenge progress. Dates are millisecond
 * timestamps; a TypeScript `type` field is called `kind` here, since `type`
 * is a Dafny keyword.
 */
module Types {
  import opened Wrappers

  datatype WasteType = Organic | Recyclable | Hazardous | Electronic | Medical | Other

  datatype Rarity = Common | Rare | Epic | Legendary

  datatype Badge = Badge(id: string, name: string, description: string, icon: string,
                         earnedAt: int, rarity: Rarity)

  datatype GeoPoint = GeoPoint(lat: real, lng: real)

  datatype VendorType = Recycler | Ngo | Municipal

  datatype Vendor = Vendor(id: string, name: string, kind: VendorType, address: string,
                           location: GeoPoint, phone: string, email: string,
                           services: seq<string>, rating: real, isVerified: bool)

  datatype OfflineActionType = WasteClassification | ProfileUpdate | VendorRating

  /** A queued offline mutation; its untyped payload is not modelled. */
  datatype OfflineAction = OfflineAction(id: string, kind: OfflineActionType,
                                         timestamp: int, retryCount: int)

  datatype NotificationPreferences =
    NotificationPreferences(achievements: bool, challenges: bool, reminders: bool, marketing: bool)

  datatype Quality = Low | Medium | High

  datatype CameraSettings = CameraSettings(quality: Quality, autoAnalyze: bool, saveToGallery: bool)

  datatype ChallengeType = Daily | Weekly | Monthly | Special

  datatype ChallengeCategory = Waste | Energy | Water | Transport | Lifestyle

  datatype Difficulty = Easy | Medium | Hard

  datatype RequirementType = Action | Quantity | Duration

  datatype ChallengeRequirement =
    ChallengeRequirement(id: string, description: string, kind: RequirementType,
                         target: int, unit: Option<string>, isCompleted: bool)

  datatype EcoChallenge =
    EcoChallenge(id: string, title: string, description: string, kind: ChallengeType,
                 category: ChallengeCategory, difficulty: Difficulty, pointsReward: int,
                 startDate: int, endDate: int, requirements: seq<ChallengeRequirement>,
                 icon: string, isActive: bool, participantCount: int, completionRate: real)

  datatype ChallengeStatus = NotStarted | InProgress | Completed | Failed

  datatype ChallengeProgress =
    ChallengeProgress(requirementId: string, currentValue: int, targetValue: int,
                      isCompleted: bool, lastUpdated: int)

  datatype UserChallengeProgress =
    UserChallengeProgress(id: string, userId: string, challengeId: string,
                          status: ChallengeStatus, progress: seq<ChallengeProgress>,
                          startedAt: int, completedAt: Option<int>, pointsEarned: int)
}
