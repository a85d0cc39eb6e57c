/** The constant tables of the mobile application: waste-type colours and achievement levels. */
module Constants {
  import opened Types

  /** `WASTE_TYPE_COLORS`. */
  function WasteTypeColor(w: WasteType): string {
    match w
    case Organic => "#10b981"
    case Recyclable => "#3b82f6"
    case Hazardous => "#ef4444"
    case Electronic => "#f59e0b"
    case Medical => "#8b5cf6"
    case Other => "#6b7280"
  }

  /** An inclusive upper bound that may be `Infinity`. */
  datatype Bound = Finite(n: int) | Infinity

  datatype AchievementLevel = AchievementLevel(min: int, max: Bound, name: string)

  const Beginner := AchievementLevel(0, Finite(100), "Eco Beginner")
  const Enthusiast := AchievementLevel(101, Finite(500), "Eco Enthusiast")
  const Champion := AchievementLevel(501, Finite(1000), "Eco Champion")
  const Hero := AchievementLevel(1001, Finite(5000), "Eco Hero")
  const Legend := AchievementLevel(5001, Infinity, "Eco Legend")

  /** `Object.entries(ACHIEVEMENT_LEVELS)`, in declaration order. */
  const AchievementLevels: seq<AchievementLevel> := [Beginner, Enthusiast, Champion, Hero, Legend]
}
