/** Record shapes shared by the server and the client: the four stored tables
    (users, skin conditions, treatments, condition/treatment links), the rows
    handed to their create operations, and the analysis result. */
module Schema {

  datatype Option<+T> = None | Some(value: T)

  datatype User = User(id: int, username: string, password: string)
  datatype InsertUser = InsertUser(username: string, password: string)
  {
    /** `{ ...insertUser, id }` */
    function WithId(id: int): User
    {
      User(id, username, password)
    }
  }

  datatype SkinCondition = SkinCondition(
    id: int,
    name: string,
    description: string,
    symptoms: string,
    severity: string,        // "mild", "moderate" or "severe"
    commonLocations: string  // comma-separated, e.g. "cheeks, forehead"
  )
  datatype InsertSkinCondition = InsertSkinCondition(
    name: string,
    description: string,
    symptoms: string,
    severity: string,
    commonLocations: string
  )
  {
    /** `{ ...insertCondition, id }` */
    function WithId(id: int): SkinCondition
    {
      SkinCondition(id, name, description, symptoms, severity, commonLocations)
    }
  }

  datatype Treatment = Treatment(
    id: int,
    name: string,
    description: string,
    ingredients: string,
    recommendationLevel: string,  // "high", "medium" or "low"
    tags: string                  // comma-separated
  )
  datatype InsertTreatment = InsertTreatment(
    name: string,
    description: string,
    ingredients: string,
    recommendationLevel: string,
    tags: string
  )
  {
    /** `{ ...insertTreatment, id }` */
    function WithId(id: int): Treatment
    {
      Treatment(id, name, description, ingredients, recommendationLevel, tags)
    }
  }

  datatype ConditionTreatment = ConditionTreatment(
    id: int,
    conditionId: int,
    treatmentId: int,
    efficacy: string  // "high", "medium" or "low"
  )
  datatype InsertConditionTreatment = InsertConditionTreatment(
    conditionId: int,
    treatmentId: int,
    efficacy: string
  )
  {
    /** `{ ...insertRelationship, id }` */
    function WithId(id: int): ConditionTreatment
    {
      ConditionTreatment(id, conditionId, treatmentId, efficacy)
    }
  }

  /** One entry of `detectedConditions` in an analysis result. */
  datatype DetectedCondition = DetectedCondition(
    id: int,
    name: string,
    description: string,
    locations: string,
    confidence: int,
    severity: string
  )

  /** One entry of `recommendedTreatments` in an analysis result. */
  datatype RecommendedTreatment = RecommendedTreatment(
    id: int,
    name: string,
    description: string,
    recommendationLevel: string,
    tags: seq<string>
  )

  datatype AnalysisResult = AnalysisResult(
    detectedConditions: seq<DetectedCondition>,
    recommendedTreatments: seq<RecommendedTreatment>
  )
}
