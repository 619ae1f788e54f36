# Table football: a verified model of the match core

This project models the scripted core of a Unity table-football (foosball)
environment for reinforcement learning. Two teams of four player rods play a
ball on a table. The ball controller turns collisions into events: a player
contact, a table (wall) contact, a goal, or an auto-kick after the ball
idles. The agent's statistics track ball possession with two timers, keep
short histories of shot rewards and spin penalties, and count goals. The
learning agent builds a normalised observation vector every step and
collects its shaped rewards. A scripted heuristic opponent steers its rods
towards the ball.

Modules, one per source file:

- `Geometry`: the parts of Vector2, Vector3 and Mathf in use, over `real`.
- `Util`: the soft-sign sigmoid, `PowInt` and `SplitDecimalPlaces` (`Util.cs`).
- `Timers`: the interval timer (`Timer.cs`).
- `Stats`: reward queues, possession clocks and score rate (`AgentStats.cs`).
- `Events`: ball events and their attribution through the scene hierarchy (`BallEvent.cs`).
- `BallController`: the ball (`Ball.cs`).
- `Rods`: one player rod (`PlayerPosition.cs`).
- `Teams`: a team of rods (`Team.cs`).
- `Agent`: the learning agent (`FootballAgent.cs`).
- `Heuristic`: the scripted opponent (`DumbHeuristic.cs`).

Objects whose fields the source updates in place are classes: `Timer`,
`AgentStats`, `Ball`, `PlayerPosition`, `Team`, `FootballAgent` and
`DumbHeuristic`. Each of their methods states its new state in terms of a
value-level function of the old state, such as `Started`, `GoalClocks`,
`RodStepped` or `ObservationVector`. Lemmas about those functions carry the
properties: possession never exceeds game time, reward queues keep the last
five values, decimal places recombine to the value, and so on.

Some values come from outside the scripts and become explicit inputs:

- the clock `Time.time` is a parameter `now`;
- the random sample `Random.insideUnitCircle` is a parameter `p`;
- `Mathf.Sin` is a function parameter;
- world positions (ball, goal, players) are parameters;
- every magnitude (a square root) is a parameter `m` with
  `m >= 0 && m * m == SqMagnitude(v)`. Comparisons of a magnitude with a
  threshold are made on squares.

The physics engine owns the rigid bodies. Their fields are plain fields the
engine may change between calls. A force with `ForceMode.VelocityChange` is
applied as the velocity change it is. An impulse (`ForceMode.Impulse`) is
recorded in `Ball.impulses`. `Invoke`, `InvokeRepeating` and `CancelInvoke`
become the `Ball.pending` schedule. Event dispatch becomes the appended
`Ball.dispatched` log.

## Model

| member | source | states |
|---|---|---|
| Timers.Timer.constructor | Assets/Football/Scripts/Timer.cs:12-17 | a new timer is stopped, with start time and interval sum 0 |
| Timers.Timer.EllapsedTotal | Assets/Football/Scripts/Timer.cs:8-10 | the reading is the closed intervals' sum plus, while running, the time since the last start |
| Timers.Timer.Reset | Assets/Football/Scripts/Timer.cs:19-23 | clears the sum, stops the timer and keeps the start time |
| Timers.Timer.StartInterval | Assets/Football/Scripts/Timer.cs:25-29 | sets the start time to now and marks the timer running, also when it already runs |
| Timers.Timer.StopInterval | Assets/Football/Scripts/Timer.cs:31-35 | adds the time since the last start to the sum whether or not the timer runs, then stops it |
| Timers.Timer.IsRunning | Assets/Football/Scripts/Timer.cs:7 | the flag is the state's running field |
| Timers.Cleared | Assets/Football/Scripts/Timer.cs:19-23 | Reset's new state: stopped, sum 0, start time kept |
| Timers.Started | Assets/Football/Scripts/Timer.cs:25-29 | StartInterval's new state: running from now, reading at now equal to the closed sum |
| Timers.Stopped | Assets/Football/Scripts/Timer.cs:31-35 | StopInterval's new state: stopped with the start time kept; a running timer's sum becomes its reading at now, a stopped one's grows by now minus the start time again |
| Timers.FreshInv | Assets/Football/Scripts/Timer.cs:12-17 | a new timer satisfies the timer invariant and reads 0 |
| Timers.TimerInvPreserved | Assets/Football/Scripts/Timer.cs:19-35 | Reset, StartInterval and StopInterval keep start time <= now and sum >= 0, and the invariant carries to later times |
| Timers.ElapsedNonNegative | Assets/Football/Scripts/Timer.cs:8-10 | under the invariant the reading is never negative |
| Timers.ResetReadsZero | Assets/Football/Scripts/Timer.cs:19-23 | after Reset the timer is stopped and reads 0 at every time |
| Timers.ElapsedAdvances | Assets/Football/Scripts/Timer.cs:8-10 | as time passes the reading grows by exactly the time passed while running and stays put while stopped |
| Timers.StartKeepsReading | Assets/Football/Scripts/Timer.cs:25-29 | starting a stopped timer keeps its reading; restarting a running one drops the open interval |
| Timers.ReadingDropsOnlyOnResetOrRestart | Assets/Football/Scripts/Timer.cs:19-35 | stopping never lowers the reading; only Reset and a restart of a running timer lower it |
| Timers.StopFreezesReading | Assets/Football/Scripts/Timer.cs:31-35 | stopping a running timer freezes the reading it had at that moment |
| Timers.StopWhileStoppedCountsAgain | Assets/Football/Scripts/Timer.cs:31-35 | stopping a stopped timer adds the time since its last start a second time |
| Timers.StartThenStop | Assets/Football/Scripts/Timer.cs:25-35 | a start at t0 then a stop at t1 adds exactly t1 - t0 and leaves the timer stopped |
| Timers.RunIntervalsSums | Assets/Football/Scripts/Timer.cs:25-35 | replaying start/stop pairs on a stopped timer adds the sum of their durations and leaves it stopped |
| Timers.FromResetReadsTotal | Assets/Football/Scripts/Timer.cs:19-35 | from a reset, the reading after any start/stop pairs is the total of their durations |
| Stats.Enqueued | Assets/Football/Scripts/AgentStats.cs:87-94 | one enqueue into a queue of at most five leaves the last five of the old contents plus the new value |
| Stats.EnqueuedAllKeepsLast | Assets/Football/Scripts/AgentStats.cs:87-94 | after any number of AddReward calls the queue holds the last five of all values, oldest first |
| Stats.SevenRewardsKeepFive | Assets/Football/Scripts/AgentStats.cs:32-33 | seven rewards into an empty queue leave the last five |
| Stats.MeanBounds | Assets/Football/Scripts/AgentStats.cs:53-56 | the average of queued values in [lo, hi] lies in [lo, hi]; an empty queue averages 0 |
| Stats.Possession | Assets/Football/Scripts/AgentStats.cs:61-64 | under the possession invariant the possession ratio lies in [0, 1] |
| Stats.ScoreRate | Assets/Football/Scripts/AgentStats.cs:69-72 | the score rate lies in [0, 1] and, once a goal is counted, times the goal count gives the goals scored |
| Stats.ResetClocks | Assets/Football/Scripts/AgentStats.cs:74-85 | Reset leaves both timers stopped with sum 0 |
| Stats.GoalClocks | Assets/Football/Scripts/AgentStats.cs:96-112 | after a goal both timers are stopped; possession time is kept, and so is game time when the game timer ran |
| Stats.ContactClocks | Assets/Football/Scripts/AgentStats.cs:114-130 | after a contact the game timer runs and the ball timer runs exactly for the agent's team, restarted at now; a running game timer is left alone, and neither reading at now changes |
| Stats.AutoKickClocks | Assets/Football/Scripts/AgentStats.cs:132-145 | after an auto-kick both timers are stopped and both readings at now are kept |
| Stats.FreshClocksInv | Assets/Football/Scripts/AgentStats.cs:35-47 | two new timers satisfy the possession invariant and possession is 0 |
| Stats.PossessionInvLater | Assets/Football/Scripts/AgentStats.cs:20-23 | the possession invariant, once true, holds at every later time |
| Stats.ResetKeepsInv | Assets/Football/Scripts/AgentStats.cs:74-85 | Reset keeps the possession invariant and sets possession to 0 |
| Stats.GoalKeepsInv | Assets/Football/Scripts/AgentStats.cs:96-112 | a goal keeps the invariant, stops both timers and keeps the possession time |
| Stats.ContactKeepsInv | Assets/Football/Scripts/AgentStats.cs:114-130 | a contact keeps the invariant and both readings, game time runs, and possession runs exactly for the agent's team |
| Stats.AutoKickKeepsInv | Assets/Football/Scripts/AgentStats.cs:132-145 | an auto-kick keeps the invariant and both readings and stops both timers |
| Stats.AgentStats.HasBall | Assets/Football/Scripts/AgentStats.cs:20-23 | the agent has the ball exactly while the possession timer runs |
| Stats.AgentStats.constructor | Assets/Football/Scripts/AgentStats.cs:35-47 | the name is set, the two timers are new, and both queues and all counters are empty or 0 |
| Stats.AgentStats.GetReward | Assets/Football/Scripts/AgentStats.cs:53-56 | returns the mean of the queue of that reward type, or 0 when it is empty |
| Stats.AgentStats.GetBallPossession | Assets/Football/Scripts/AgentStats.cs:61-64 | returns possession time over the larger of 1 and game time |
| Stats.AgentStats.GetOverallScoreRate | Assets/Football/Scripts/AgentStats.cs:69-72 | returns goals scored over the larger of 1 and goals counted, within [0, 1] |
| Stats.AgentStats.Reset | Assets/Football/Scripts/AgentStats.cs:74-85 | zeroes the episode's goals, resets both timers, empties both queues and keeps the lifetime counters |
| Stats.AgentStats.AddReward | Assets/Football/Scripts/AgentStats.cs:87-94 | enqueues into that queue alone, dropping the oldest entry beyond five |
| Stats.AgentStats.OnGoal | Assets/Football/Scripts/AgentStats.cs:96-112 | stops the game timer, stops possession if held, counts the goal and, if scored, the goals scored |
| Stats.AgentStats.OnPlayerContact | Assets/Football/Scripts/AgentStats.cs:114-130 | starts the game timer on the first contact, ends any possession and starts possession for the agent's team |
| Stats.AgentStats.OnAutoKick | Assets/Football/Scripts/AgentStats.cs:132-145 | stops whichever of the two timers is running |
| Geometry.Sign | Assets/Football/Scripts/Util.cs:33 | Mathf.Sign is +1 or -1, +1 exactly for non-negative values, and times the absolute value gives the value |
| Geometry.Normalized | Assets/Football/Scripts/FootballAgent.cs:145 | a vector longer than 1e-5 normalises to unit length along itself; a shorter one to zero |
| Geometry.ReflectLaw | Assets/Football/Scripts/Ball.cs:215 | reflecting about a unit normal negates the normal component, keeps the tangential one and keeps the length |
| Util.Sigmoid | Assets/Football/Scripts/Util.cs:7-14 | the soft sign lies strictly in (-1, 1) and has the sign of its argument |
| Util.SigmoidOdd | Assets/Football/Scripts/Util.cs:7-14 | the sigmoid is odd |
| Util.SigmoidMonotone | Assets/Football/Scripts/Util.cs:7-14 | the sigmoid is strictly increasing |
| Util.SigmoidRoundTrip | Assets/Football/Scripts/Util.cs:7-14 | y / (1 - abs(y)) recovers the argument, so the squashing loses nothing |
| Util.SigmoidVec | Assets/Football/Scripts/Util.cs:16-22 | every component of the squashed vector lies in (-1, 1) |
| Util.SigmoidVecComponentwise | Assets/Football/Scripts/Util.cs:16-22 | each output component depends only on the same input component, and negation commutes |
| Util.PowInt | Assets/Football/Scripts/Util.cs:44-57 | exponentiation by squaring returns value^exp for exp >= 0 and 1 for exp <= 0 |
| Util.Mod10 | Assets/Football/Scripts/Util.cs:37 | the remainder by 10 of a non-negative value lies in [0, 10) |
| Util.Place | Assets/Football/Scripts/Util.cs:37-38 | every decimal place, floored or not, lies in [0, 10) |
| Util.SplitDecimalPlaces | Assets/Football/Scripts/Util.cs:30-42 | the loop fills entry i - 1 with place i of abs(value), floored except the last, times the sign over 10 |
| Util.DecimalPlacesExample | Assets/Football/Scripts/Util.cs:24-25 | 0.12345 with 3 places gives [0.1, 0.2, 0.345] |
| Util.DecimalPlacesShape | Assets/Football/Scripts/Util.cs:30-42 | every entry carries the value's sign and lies in (-1, 1); all but the last are a digit 0..9 over 10 |
| Util.DecimalPlacesOdd | Assets/Football/Scripts/Util.cs:30-42 | negating the value negates every entry |
| Util.DecimalPlacesRecombine | Assets/Football/Scripts/Util.cs:24-42 | e0 + e1/10 + e2/100 + ... gives the signed fractional part of the value, so the value itself when abs(value) < 1 |
| Events.FromCollision | Assets/Football/Scripts/BallEvent.cs:22-34 | a collision event names the collider; it names player, rod and team, read from the hierarchy, exactly for a player |
| Events.FromObject | Assets/Football/Scripts/BallEvent.cs:36-44 | an object event names the object, with the parent team exactly for a goal |
| Events.NoEventConsistent | Assets/Football/Scripts/BallEvent.cs:46-48 | the empty event names nothing and has state Enter |
| Events.PlayerCollisionAttribution | Assets/Football/Scripts/BallEvent.cs:22-34 | a player collision names the player, its parent rod and that rod's parent team |
| BallController.IdleStep | Assets/Football/Scripts/Ball.cs:119-132 | a slow sample increments the idle count and kicks exactly when the new count equals the timeout; a fast one clears the count without kicking |
| BallController.Slow | Assets/Football/Scripts/Ball.cs:121 | a ball at rest is slow, and a slow ball has every velocity component below 0.1 in size |
| BallController.KickDirection | Assets/Football/Scripts/Ball.cs:101-110 | near the centre the direction is the disk sample in the (x, z) plane; farther out it leads from the ball to the sample scaled by 0.2 |
| BallController.BounceVelocity | Assets/Football/Scripts/Ball.cs:211-215 | the bounced velocity has 0.81 times the squared speed of the incoming one |
| BallController.InBounds | Assets/Football/Scripts/Ball.cs:28 | the centre is inside the watchdog box, and a point inside it has squared distance at most 0.7625 from the centre |
| BallController.OneSlowSampleKicks | Assets/Football/Scripts/Ball.cs:14 | with the timeout of 1 in the code, a sample kicks exactly when it is slow |
| BallController.KickImpulse | Assets/Football/Scripts/Ball.cs:112 | the impulse has magnitude 0.25, or is zero for a direction too short to normalise |
| BallController.KickNearCentre | Assets/Football/Scripts/Ball.cs:101-104 | near the centre the kick is horizontal and points along the disk sample |
| BallController.KickHeadsInward | Assets/Football/Scripts/Ball.cs:105-110 | beyond the centre radius the kick points back towards the centre |
| BallController.WallNormal | Assets/Football/Scripts/Ball.cs:211-214 | end walls (abs(z) > 0.5) give a normal along z, side walls along x; it has unit length |
| BallController.BounceLaw | Assets/Football/Scripts/Ball.cs:215 | a bounce keeps 0.81 of the squared speed and reverses the normal component, damped by 0.9 |
| BallController.InitializeTwiceShrinks | Assets/Football/Scripts/Ball.cs:72-79 | Initialize is not idempotent: a second call shrinks the field again |
| BallController.FieldInsideBounds | Assets/Football/Scripts/Ball.cs:25-28 | after one Initialize the half field lies inside the watchdog box |
| BallController.Ball.constructor | Assets/Football/Scripts/Ball.cs:10-28 | a new ball is at rest with the measured field size, start position and idle count at their defaults (zero), and nothing scheduled, dispatched or applied |
| BallController.Ball.Initialize | Assets/Football/Scripts/Ball.cs:72-79 | remembers the start position and halves the field minus the ball size |
| BallController.Ball.ReSet | Assets/Football/Scripts/Ball.cs:81-85 | dispatches an empty reset event, then recentres |
| BallController.Ball.SetToCenter | Assets/Football/Scripts/Ball.cs:87-95 | moves to the start position at rest and schedules a single auto-kick after 0.5 s |
| BallController.Ball.AutoKick | Assets/Football/Scripts/Ball.cs:97-117 | dispatches the auto-kick event, applies the kick impulse, clears the idle count and schedules only the repeating check |
| BallController.Ball.CheckVelocity | Assets/Football/Scripts/Ball.cs:119-132 | a slow sample auto-kicks; a fast one changes nothing but the idle count |
| BallController.Ball.Update | Assets/Football/Scripts/Ball.cs:134-141 | outside the watchdog box the ball recentres; inside, nothing changes |
| BallController.Ball.OnTriggerEnter | Assets/Football/Scripts/Ball.cs:172-179 | a goal trigger dispatches the goal event and recentres; any other trigger is ignored |
| BallController.Ball.OnCollisionEnter | Assets/Football/Scripts/Ball.cs:189-192 | handles the collision as an Enter event |
| BallController.Ball.OnCollisionExit | Assets/Football/Scripts/Ball.cs:194-197 | handles the collision as an Exit event |
| BallController.Ball.OnCollision | Assets/Football/Scripts/Ball.cs:199-218 | dispatches player contacts; dispatches table contacts and bounces on Enter; ignores other objects |
| BallController.Ball.GetNormalizedPosition2D | Assets/Football/Scripts/Ball.cs:33-39 | (x, z) over the half field, each in [-1, 1] while on the field |
| BallController.Ball.GetNormalizedPosition3D | Assets/Football/Scripts/Ball.cs:44-51 | the 2D entries plus the height mapped from [0.065, 0.175] onto [-1, 1] |
| BallController.Ball.GetNormalizedVelocity2D | Assets/Football/Scripts/Ball.cs:56-62 | the squashed x and z velocity, each in (-1, 1) |
| BallController.Ball.GetNormalizedVelocity3D | Assets/Football/Scripts/Ball.cs:67-70 | the squashed velocity narrowed to a Vector2: x and y, with z dropped |
| Rods.RodInitialized | Assets/Football/Scripts/PlayerPosition.cs:29-42 | Initialize's new state: the sign, limit and cap are set, the start pose is the current pose, nothing else changes, and a later reset returns to that pose |
| Rods.RodStepped | Assets/Football/Scripts/PlayerPosition.cs:49-53 | StepUpdate's new state: only the x parts of velocity and spin change, by move and 25 turn along the axis |
| Rods.RodReset | Assets/Football/Scripts/PlayerPosition.cs:55-63 | ReSet's new state: start pose, neutral joint targets and rest; the start pose is kept, so a second reset changes nothing, and nothing else changes |
| Rods.NormAngle | Assets/Football/Scripts/PlayerPosition.cs:68-71 | the angle times the sign over 180, in [-1, 1] for angles in [-180, 180] |
| Rods.NormPosition | Assets/Football/Scripts/PlayerPosition.cs:76-79 | the slide over the joint limit, in [-1, 1] within the limit |
| Rods.NormVelocity | Assets/Football/Scripts/PlayerPosition.cs:84-87 | the velocity times the sign over 3.4, in [-1, 1] up to the measured maximum |
| Rods.NormAngularVelocity | Assets/Football/Scripts/PlayerPosition.cs:92-95 | the spin times the sign over 25, in [-1, 1] up to the cap |
| Rods.RodObsSignFlip | Assets/Football/Scripts/PlayerPosition.cs:68-95 | the opposite team sign negates the velocity, spin and angle observations and keeps the position |
| Rods.StepObservedWithoutSign | Assets/Football/Scripts/PlayerPosition.cs:49-53 | for either team a step moves the velocity observation by move / 3.4 and the spin observation by turn |
| Rods.SpinObsBoundedByCap | Assets/Football/Scripts/PlayerPosition.cs:38 | while the angular speed respects the cap of 25, the spin observation lies in [-1, 1] |
| Rods.PlayerPosition.Initialize | Assets/Football/Scripts/PlayerPosition.cs:29-42 | stores the sign, the start pose, the angular velocity cap and the joint limit |
| Rods.PlayerPosition.StepUpdate | Assets/Football/Scripts/PlayerPosition.cs:49-53 | adds move * 1 and turn * 25 along the rod's local x axis to its velocity and spin |
| Rods.PlayerPosition.ReSet | Assets/Football/Scripts/PlayerPosition.cs:55-63 | restores the start pose, neutral joint targets and rest |
| Teams.TeamSign | Assets/Football/Scripts/Team.cs:21-23 | the sign is +1 for a y rotation below 90 degrees, -1 otherwise |
| Teams.OpposedTeamsOpposedSigns | Assets/Football/Scripts/Team.cs:11-13 | teams rotated by 0 and 180 degrees get opposite signs |
| Teams.TeamObsLayout | Assets/Football/Scripts/Team.cs:50-61 | the team observation has four entries per rod, rod k at 4k .. 4k+3 |
| Teams.Team.Initialize | Assets/Football/Scripts/Team.cs:21-29 | sets the sign from the orientation and initialises every rod with it |
| Teams.Team.ReSet | Assets/Football/Scripts/Team.cs:31-39 | resets every rod |
| Teams.Team.StepUpdate | Assets/Football/Scripts/Team.cs:41-48 | rod k takes action entries 2k and 2k+1 as move and turn |
| Teams.Team.GetNormalizedObs | Assets/Football/Scripts/Team.cs:50-61 | velocity, spin, position and angle of each rod, rod by rod |
| Agent.BallObs | Assets/Football/Scripts/FootballAgent.cs:91-108 | the ball entries in order: 2D gives mirrored velocity and two four-place positions; 3D gives mirrored x, unmirrored y and a 0 for z velocity, then x places, height, z places |
| Agent.OwnRodObs | Assets/Football/Scripts/FootballAgent.cs:113-118 | an own rod's eight entries: velocity, spin, three places of position, three places of angle |
| Agent.ShotRewardValue | Assets/Football/Scripts/FootballAgent.cs:143-145 | the reward times the distance to the goal is the multiplier times the velocity's dot product with the goal direction; a direction too short to normalise gives 0 |
| Agent.SpinPenaltyValue | Assets/Football/Scripts/FootballAgent.cs:159 | for spin sums within [0, 4] the penalty lies in [0, maxSpinPenalty] |
| Agent.FootballAgent.Reading | Assets/Football/Scripts/FootballAgent.cs:91-108 | the ball readings: velocity entries within (-1, 1); the 2D position is the x and z of the 3D one |
| Agent.DefaultsInRange | Assets/Football/Scripts/FootballAgent.cs:32-51 | the default reward parameters lie in their inspector ranges |
| Agent.OwnObsLayout | Assets/Football/Scripts/FootballAgent.cs:110-119 | the own rods contribute eight entries each, rod k at 8k .. 8k+7 |
| Agent.ObservationLength | Assets/Football/Scripts/FootballAgent.cs:89-121 | the vector has 10 or 12 ball entries, 8 per own rod and 4 per opponent rod: 58 or 60 with four rods a side |
| Agent.ThreeDVelocityLosesZ | Assets/Football/Scripts/FootballAgent.cs:100-106 | in 3D mode the third velocity entry is always 0 and the height entry is not mirrored |
| Agent.SpinSumBounds | Assets/Football/Scripts/FootballAgent.cs:110-115 | with spins in [-1, 1] the spin sum lies in [0, number of rods] |
| Agent.SpinPenaltyBound | Assets/Football/Scripts/FootballAgent.cs:157-162 | with four rods the recorded penalty lies in [-maxSpinPenalty, 0] |
| Agent.ShotRewardLaw | Assets/Football/Scripts/FootballAgent.cs:139-147 | the squared shot reward is at most multiplier squared times the squared speed; for a positive multiplier and a goal direction that normalises, it is positive exactly when the ball moves towards the goal |
| Agent.GoalReward | Assets/Football/Scripts/FootballAgent.cs:178-182 | a scored goal earns a reward in [0, 1], a conceded goal a penalty in [-1, 0] |
| Agent.Rewarded | Assets/Football/Scripts/FootballAgent.cs:129-136 | the shot queue gets the shot entry when shots are rewarded, the spin queue the negated penalty when spin is penalised |
| Agent.ObserveOwnRod | Assets/Football/Scripts/FootballAgent.cs:113-118 | velocity, spin, then position and angle in three decimal places each |
| Agent.ObserveOwnRods | Assets/Football/Scripts/FootballAgent.cs:110-119 | the loop appends each rod's eight entries and sums the absolute spins |
| Agent.FootballAgent.InitializeAgent | Assets/Football/Scripts/FootballAgent.cs:61-74 | new statistics named after the team, the team initialised, and each flag on exactly when its parameter is positive or an opponent is set |
| Agent.FootballAgent.AgentReset | Assets/Football/Scripts/FootballAgent.cs:76-82 | counts a game, resets the rods and the statistics (keeping the lifetime goal counts), sets the match state to play, and leaves the feature flags, reward and observations unchanged |
| Agent.FootballAgent.AgentAction | Assets/Football/Scripts/FootballAgent.cs:84-87 | the action vector steps the team's rods |
| Agent.FootballAgent.BallObservations | Assets/Football/Scripts/FootballAgent.cs:91-108 | the mirrored ball velocity and split position, 2D or 3D |
| Agent.FootballAgent.Observe | Assets/Football/Scripts/FootballAgent.cs:89-121 | the ball, own-rod and opponent-rod entries in that order, and the spin sum |
| Agent.FootballAgent.AddRewards | Assets/Football/Scripts/FootballAgent.cs:129-136 | the enabled shot reward, then the enabled spin penalty, to the queues and to the reward |
| Agent.FootballAgent.CollectObservations | Assets/Football/Scripts/FootballAgent.cs:89-137 | appends the observation vector, sends the text observation and sets play for a ghost trainer, then adds the rewards |
| Agent.FootballAgent.AppendObservations | Assets/Football/Scripts/FootballAgent.cs:89-127 | appends the observation vector, then for a ghost trainer sends the opponent id with the old match state and resets it to play; returns the spin sum |
| Agent.FootballAgent.AddShotReward | Assets/Football/Scripts/FootballAgent.cs:139-155 | with the ball, queues and adds the shot reward; without it, queues 0 and adds nothing |
| Agent.FootballAgent.AddSpinPenalty | Assets/Football/Scripts/FootballAgent.cs:157-162 | queues and adds minus maxSpinPenalty * spinSum / 4 |
| Agent.FootballAgent.OnAutoKick | Assets/Football/Scripts/FootballAgent.cs:164-167 | passes the auto-kick to the statistics |
| Agent.FootballAgent.OnPlayerContact | Assets/Football/Scripts/FootballAgent.cs:169-176 | only an Exit contact counts, for the agent's team exactly when the event names it |
| Agent.FootballAgent.OnGoal | Assets/Football/Scripts/FootballAgent.cs:178-188 | a goal in the opponent's goal is a win with the scored reward; any other goal is a loss with the conceded penalty |
| Agent.FootballAgent.HandleBallEvent | Assets/Football/Scripts/FootballAgent.cs:164-188 | the whole new state per event: an auto-kick stops both timers; an exiting contact runs the game timer and runs the possession timer exactly when the agent's team touched, other contact states change no timer; a goal stops the timers, counts the goal (and scored goals when scored), adds the goal reward and sets the match state to win or loss; reward queues always, and reward, match state and counters on non-goal events, stay unchanged |
| Heuristic.NearestUpTo | Assets/Football/Scripts/DumbHeuristic.cs:39-47 | after the first n players, the one GetDeltaX holds is the earliest nearest to the ball among them |
| Heuristic.NearestIndex | Assets/Football/Scripts/DumbHeuristic.cs:37-49 | the chosen player is nearest to the ball, and every earlier player is strictly farther |
| Heuristic.EarliestNearestUnique | Assets/Football/Scripts/DumbHeuristic.cs:43 | the strict comparison leaves exactly one candidate when distances tie |
| Heuristic.GetDeltaX | Assets/Football/Scripts/DumbHeuristic.cs:37-49 | returns the x offset from the earliest nearest player to the ball |
| Heuristic.DeltaZ | Assets/Football/Scripts/DumbHeuristic.cs:29 | the z distance to a rod is never negative |
| Heuristic.MoveAction | Assets/Football/Scripts/DumbHeuristic.cs:30 | the move is 0 from a z distance of 0.5 |
| Heuristic.TurnAction | Assets/Football/Scripts/DumbHeuristic.cs:31 | for a non-negative distance the turn lies in [0, 0.05] |
| Heuristic.Noise | Assets/Football/Scripts/DumbHeuristic.cs:27 | for a sine within [-1, 1] the noise lies in [-0.15, 0.15] |
| Heuristic.TurnActionBounded | Assets/Football/Scripts/DumbHeuristic.cs:31 | the turn action lies in [0, 0.05] and is 0 exactly from a distance of 0.5 |
| Heuristic.MoveActionFar | Assets/Football/Scripts/DumbHeuristic.cs:30 | the move action is 0 from a distance of 0.5 |
| Heuristic.MoveActionNear | Assets/Football/Scripts/DumbHeuristic.cs:30 | closer than 0.5 the move action has the sign of dx and at most half its size |
| Heuristic.HeuristicActionsBounded | Assets/Football/Scripts/DumbHeuristic.cs:24-32 | every turn entry of the action vector lies in [0, 0.05], and the move entry of a rod 0.5 or more away is 0 |
| Heuristic.DumbHeuristic.constructor | Assets/Football/Scripts/DumbHeuristic.cs:13 | the action buffer has eight entries, all 0 |
| Heuristic.DumbHeuristic.RodActions | Assets/Football/Scripts/DumbHeuristic.cs:26-31 | rod i's move and turn from the nearest player's offset, the noise and the z distance |
| Heuristic.DumbHeuristic.Fill | Assets/Football/Scripts/DumbHeuristic.cs:24-32 | entries 2i and 2i+1 of the buffer hold rod i's move and turn |
| Heuristic.DumbHeuristic.FixedUpdate | Assets/Football/Scripts/DumbHeuristic.cs:20-35 | fills the buffer for the four rods and steps the team with it |

## Left out

- The physics engine: rigid-body integration, joint limits, collision detection, and what forces eventually do. Bodies are fields the engine may change between calls.
- Rendering, UI and audio (`StatsUI.cs`, `TrailUI.cs`, `SoundFX.cs`, `CamRotate.cs`, `CamUI.cs`): presentation-only subscribers.
- The goal and reset highlight flashing (`Team.cs` lines 65-103, and `HighlightGoal` in `OnGoal`): timed visual effects.
- `FootballAcademy.cs` and `Initializer.cs`: scene glue. The academy, not `AgentReset`, resets the ball.
- Floating point: all arithmetic is over exact reals. Rounding in `SplitDecimalPlaces` and in the normalisations is not modelled. Infinities and NaN are not modelled either: where C# would divide by zero and return one of them, the model requires a non-zero divisor. This covers `Rods.NormPosition` and `Rods.PlayerPosition.GetNormalizedPosition` (`limit != 0`), and the ball's `GetNormalizedPosition2D` and `GetNormalizedPosition3D` (positive field extents).
- Square roots: magnitudes are inputs with their defining equation.
- `Vector3.SignedAngle`: the rod angle is a field kept up to date by the engine.
- `Random.insideUnitCircle`, `Time.time` and `Mathf.Sin` are inputs. Only the lemmas about kicks assume the sample lies in the unit disk.
- The ML-Agents base class: `AddVectorObs`, `AddReward` and `SetTextObs` are the buffers `observations`, `reward` and `textObs`. The text "id|state" is a `TextObs` value; `MatchStateText` gives the state strings. `Progress`, `GetStepCount`, the agent `ID` and `GameCount` beyond its increment are not modelled further.
- Event subscription (`+=` in `InitializeAgent`, `-=` in `OnApplicationQuit`): the subscription is `HandleBallEvent`, which routes a dispatched event to the three handlers. The null check on handlers before dispatch is not modelled: every dispatch is logged.
- `rb.centerOfMass = Vector3.zero` in `PlayerPosition.Initialize`: it only affects the physics engine.
- Rods.PlayerPosition.Initialize: records the angular velocity cap of 25 but does not enforce it; `SpinObsBoundedByCap` assumes the engine keeps spins under the cap.
- `Debug.LogWarning` in `Ball.Update`: logging only.
- Events.FromCollision: requires that a player has a rod and the rod a team (`Attributable`). The source dereferences those parents unguarded and would throw otherwise.
- Stats.AgentStats.GetReward: requires a valid reward type index; the source would throw otherwise.
- Stats.AgentStats.AddReward: requires a valid reward type index; the source indexes the queue array unguarded (`AgentStats.cs` line 88) and would throw otherwise.
- Events.FromObject: requires that a goal has a parent, and so does `BallController.Ball.OnTriggerEnter`, which builds the goal event. The source dereferences `transform.parent` unguarded (`BallEvent.cs` line 42) and would throw otherwise.
- Heuristic.DumbHeuristic.FixedUpdate: requires exactly four rods and a non-empty player list per rod. The source indexes rods 0 to 3 and reads the first player unguarded, and its eight-entry buffer feeds `Team.StepUpdate`.
- `DumbHeuristic.Start` only calls `Team.Initialize`, which is modelled.
- Agent.FootballAgent.InitializeAgent: the team name and orientation (`transform.name`, `localEulerAngles.y`) are parameters.
- Agent.FootballAgent.Reading: computes all four ball readings, though each mode uses two.
- `idleTimeout` is 1, marked as seconds (`Ball.cs` line 14). With one check per second and a pre-increment (`Ball.cs` line 123), every slow sample kicks (`BallController.OneSlowSampleKicks`).
- `Timer.StopInterval` has no guard, so stopping a stopped timer counts the last interval again. This is modelled as written (`Timers.StopWhileStoppedCountsAgain`); the statistics only stop running timers, except `OnGoal`, which stops the game timer unconditionally.
