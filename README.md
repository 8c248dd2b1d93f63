# User achievements: a Dafny model of the levelling rule, the user model and the game utilities

This project models the computational core of a small system made of three parts:

- a C# API that classifies each user into an achievement level (`None`, `Bronze`, `Silver`, `Gold`, `Platinum`);
- a React front end that colours the level badges;
- a browser snake-and-coins game.

The model covers four parts:

- **The level classifier** (`AchievementLevels`, `achievement_level.dfy`). This is the `Level` getter of `UserAverageAchievement`. A library is the list of its per-game completion percentages. The tiers are tried highest first. Each tier needs a minimum number of games, and **every** game must meet the tier's percentage: exactly 100 for Platinum, at least 80 for Gold, at least 75 for Silver. Bronze needs strictly more than ten games. LINQ's `All` is the recursive predicate `All`, proved equal to its quantified reading.
- **The `User` model** (`Users`, `user.dfy`). `Equals` compares the three fields. It is false for null and for objects of other types. `GetHashCode` agrees with `Equals`. `new User()` is the "not found" placeholder.
- **The game's list operations** (`GameTypes`, `GameLogic`, `GameAI`): `collectCoinsForPlayer`, `addSnakeSegments`, `updateSnakeSegments`, `checkSelfCollision` and `findNearestCoin`. These are methods with loops, because they are loops in the source: a `map`, `for` loops that build a copied array, and scans that update a candidate or return early. Inputs are immutable sequences, so the caller's list is never changed. `undefined` is `Option.None`.
- **The badge colours** (`LevelColours`, `level_colours.dfy`): `LEVEL_COLOURS`, `getLevelColour` and `getLevelTextColour`. Lower-casing is ASCII.

Coordinates are real numbers. `Math.sqrt` is a parameter `sqrt`, and nothing is assumed about it. The rest of the arithmetic in `updateSnakeSegments` and in the distance checks is written out as real arithmetic. `findNearestCoin` takes `calculateDistance` as a parameter `distance`. `GameTypes.Distance` gives the formula that `calculateDistance` and the inline checks compute. `HashCode.Combine` is a parameter `combine`.

The `Level` getter requires every game to meet the tier's threshold; it does not average the percentages. `PerGameNotAverage` proves the case that tells the two readings apart: ten games at 100 and one at 0 gives `Bronze`, where an average of about 91 would give `Silver`.

## Model

| member | source | states |
|---|---|---|
| `AchievementLevels.Level` | User.Achievements.API/Models/UserAverageAchievement.cs:10-44 | fewer than 10 games is always `None`; `Bronze` is only ever given to more than 10 games |
| `AchievementLevels.AllMeans` | User.Achievements.API/Models/UserAverageAchievement.cs:14-34 | LINQ `All` holds exactly when the predicate holds at every index (vacuously on an empty list) |
| `AchievementLevels.AllByMembers` | User.Achievements.API/Models/UserAverageAchievement.cs:14-34 | `All` holds exactly when every value occurring in the list satisfies the predicate |
| `AchievementLevels.PlatinumIff` | User.Achievements.API/Models/UserAverageAchievement.cs:14-19 | `Platinum` exactly when there are at least 50 games and every percentage is 100 |
| `AchievementLevels.GoldIff` | User.Achievements.API/Models/UserAverageAchievement.cs:21-27 | `Gold` exactly when not `Platinum`, at least 25 games and every percentage at least 80 |
| `AchievementLevels.SilverIff` | User.Achievements.API/Models/UserAverageAchievement.cs:28-34 | `Silver` exactly when neither `Platinum` nor `Gold`, at least 10 games and every percentage at least 75 |
| `AchievementLevels.BronzeIff` | User.Achievements.API/Models/UserAverageAchievement.cs:28-38 | `Bronze` exactly when more than 10 games and at least one percentage below 75 |
| `AchievementLevels.NoneIff` | User.Achievements.API/Models/UserAverageAchievement.cs:14-42 | `None` exactly when fewer than 10 games, or exactly 10 with one below 75 |
| `AchievementLevels.EmptyIsNone` | User.Achievements.API/Models/UserAverageAchievement.cs:14-42 | an empty library is `None` |
| `AchievementLevels.TenGamesBelowSilverIsNone` | User.Achievements.API/Models/UserAverageAchievement.cs:28-42 | exactly 10 games with any game below 75 is `None`, not `Bronze` |
| `AchievementLevels.PerGameNotAverage` | User.Achievements.API/Models/UserAverageAchievement.cs:28-38 | ten games at 100 and one at 0 is `Bronze`, so the rule is per game and not an average |
| `AchievementLevels.LevelIgnoresOrder` | User.Achievements.API/Models/UserAverageAchievement.cs:14-42 | two libraries with the same multiset of percentages get the same level |
| `AchievementLevels.RaisingNeverLowers` | User.Achievements.API/Models/UserAverageAchievement.cs:14-42 | at a fixed count, raising percentages pointwise within 0..100 never lowers the level's rank |
| `AchievementLevels.RaisingPastHundredLowers` | User.Achievements.API/Models/UserAverageAchievement.cs:14-27 | fifty games at 100 are `Platinum`, but raising one of them to 101 gives `Gold` |
| `AchievementLevels.ServiceTestLevels` | User.Achievements.API.Tests/Services/UsersServiceTests.cs:104-134 | for any user id, a `UserAverageAchievement` record holding a uniform library of 12, 12, 27 or 51 games at 10, 75, 80 or 100 percent is `Bronze`, `Silver`, `Gold` or `Platinum` |
| `Users.EqualsMeans` | User.Achievements.API/Models/User.cs:9-17 | `Equals` is true exactly when the argument is a `User` with the same `Id`, `Name` and `Email`; false for null and for other types |
| `Users.EqualsIsEquivalence` | User.Achievements.API/Models/User.cs:9-17 | `Equals` is reflexive, symmetric and transitive on users |
| `Users.EqualUsersHashAlike` | User.Achievements.API/Models/User.cs:19-22 | users that are `Equals` have the same `GetHashCode`, for any deterministic `HashCode.Combine` |
| `Users.DefaultUserIsPlaceholder` | User.Achievements.API/Models/User.cs:5-7 | `new User()` has `Id` 0 and empty strings, and its `Id` is not a valid positive identifier |
| `GameLogic.CollectCoinsForPlayer` | User.Achievements.Game/src/utils/gameLogic.ts:29-49 | same length, ids and positions; a coin ends up collected exactly when it already was or is within 2.5; already-collected coins are unchanged; the flag is true exactly when some uncollected coin was within reach, i.e. was flipped |
| `GameLogic.AddSnakeSegments` | User.Achievements.Game/src/utils/gameLogic.ts:54-74 | no snake (undefined or empty) gives an empty list; otherwise the old list is an unchanged prefix, `count` segments (none if `count` is not positive) are appended, each at the last old segment's position with index equal to its place in the result |
| `GameLogic.FollowKeepsShape` | User.Achievements.Game/src/utils/gameLogic.ts:105-135 | a follower keeps its `index` and its y coordinate, and does not move when within 0.1 of its target |
| `GameLogic.FollowReachesNearTarget` | User.Achievements.Game/src/utils/gameLogic.ts:116-135 | a follower farther than 0.1 but at most one step (`movementSpeed * 1.5`) from its target lands exactly on the target's x and z |
| `GameLogic.UpdateSnakeSegments` | User.Achievements.Game/src/utils/gameLogic.ts:79-139 | no snake gives one segment at the head position with index 0; otherwise the length is kept, the head moves to `headPosition`, and each follower follows the old position of the segment in front of it |
| `GameLogic.UpdateKeepsShape` | User.Achievements.Game/src/utils/gameLogic.ts:95-138 | the updated snake has the head at `headPosition`, every `index` unchanged and every follower's y coordinate unchanged |
| `GameLogic.CheckSelfCollision` | User.Achievements.Game/src/utils/gameLogic.ts:144-160 | true exactly when some segment at index 3 or later is closer than 1.0 to the head; never with 3 segments or fewer |
| `GameAI.Uncollected` | User.Achievements.Game/src/utils/gameAI.ts:27 | the filtered list is never longer than the input |
| `GameAI.UncollectedMembers` | User.Achievements.Game/src/utils/gameAI.ts:27 | the filter keeps exactly the uncollected coins |
| `GameAI.FilterKeepsFirst` | User.Achievements.Game/src/utils/gameAI.ts:27-39 | a coin that comes before every strictly nearer coin in the filtered list also comes, in the input list, before every strictly nearer uncollected coin (the filter keeps the order) |
| `GameAI.FindNearestCoin` | User.Achievements.Game/src/utils/gameAI.ts:23-47 | null exactly when no uncollected coin is within 15 (so always null when none is uncollected); a returned coin is an uncollected input coin within 15 and no farther than any uncollected coin; among equally near coins it is the first uncollected one in input order |
| `LevelColours.GetLevelColour` | User.Achievements.Web/src/constants/index.ts:10-13 | the colour is the grey default or one of the table's colours |
| `LevelColours.GetLevelTextColour` | User.Achievements.Web/src/constants/index.ts:16-20 | the text colour is `black` or `white` |
| `LevelColours.LevelColourTableLookup` | User.Achievements.Web/src/constants/index.ts:2-13 | `bronze`, `silver`, `gold` and `platinum` (in any casing) map to `#cd7f32`, `#c0c0c0`, `#ffd700` and `#0070FF`; the colour is `#757575` exactly when the lower-cased level is not in the table |
| `LevelColours.EqualIgnoringCaseMeans` | User.Achievements.Web/src/constants/index.ts:11 | two strings lower-case to the same string exactly when they agree letter by letter up to case |
| `LevelColours.ColoursIgnoreCase` | User.Achievements.Web/src/constants/index.ts:10-20 | strings equal up to case get the same badge colour and the same text colour |
| `LevelColours.TextColourIff` | User.Achievements.Web/src/constants/index.ts:16-20 | `black` exactly when the lower-cased level is `gold` or `platinum`, `white` otherwise |
| `LevelColours.ApiLevelColours` | User.Achievements.Web/src/constants/index.ts:2-20 | each level name the API sends gets its badge colour (`None` gets the grey default), and black text exactly for `Gold` and `Platinum` |

## Left out

- The per-game percentage computation is not part of this model. `CalculatedUserAchievementForGame` is not part of this model either. Percentages enter the classifier as given integers.
- The service layer, the controller and the host wiring are left out: HTTP calls, JSON decoding, logging, caching, dependency injection, CORS and Swagger. `UserApiClient.cs`, `UsersService.cs`, `UsersController.cs` and `Program.cs` are glue. Of the client's fail-soft defaults, only the default `User` is modelled (`Users.DefaultUser`).
- `generateCoinNotNear`, `calculateAngleToTarget` and `updateAIPlayerMovement` are left out. They depend on `Math.random`, `atan2`, sine and cosine.
- The React components and hooks are left out: they handle rendering, timers and UI state. The game constants `GRID_SIZE`, `MOVEMENT_SPEED`, `COIN_COUNT` and `TICK_RATE` are left out too. Only the React components and the left-out random and trigonometric helpers use them: `generateCoinNotNear` uses `GRID_SIZE`, and `updateAIPlayerMovement` uses the `GRID_SIZE` that `gameAI.ts` declares for itself. `MOVEMENT_SPEED` reaches `UpdateSnakeSegments` as its `movementSpeed` argument.
- Floating point is modelled as exact real arithmetic: no rounding, no NaN, no infinities. `Math.sqrt` is an unconstrained parameter, so no property that depends on its values is claimed.
- GameAI.FindNearestCoin: takes the distance function as a parameter rather than unfolding the square-root formula. The player argument is reduced to its position, the only field the function reads.
- GameLogic.AddSnakeSegments: `count` is an integer; a fractional JavaScript number is not modelled. The default argument `count = SEGMENTS_PER_COIN` is not modelled either, because every caller passes `count` explicitly.
- The plain records `Game`, `UserAchievements`, `UsersLibrary`, `GameLibrary` and `CalculatedUserAchievement` are left out. No modelled operation reads them: the classifier takes the percentages directly.
- AchievementLevels.RaisingNeverLowers: requires the raised percentages to lie in 0..100. Above 100 the property is false, as `RaisingPastHundredLowers` shows.
- LevelColours.GetLevelColour: lower-casing is ASCII only. Unicode case mapping is left out. So are JavaScript's inherited object keys, such as `"constructor"`, which the real lookup would find.
- Users.EqualUsersHashAlike: `HashCode.Combine` is a parameter. Its 32-bit, per-process seeded value is not modelled.
