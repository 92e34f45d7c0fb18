/** How much money one deploy must be able to set aside (estimateRequiredDeployReserve). */
module Reserve {
  import opened Text

  const DEFAULT_REPLICA_COUNT := 1
  const DEFAULT_RESOURCE_PROFILE := "balanced"

  function NormalizedServiceType(value: string): string {
    var v := Lower(Trim(value));
    if v == "loadbalancer" then "loadbalancer"
    else if v == "clusterip" then "clusterip"
    else ""
  }

  function NormalizedReplicaCount(value: int): (n: int)
    ensures 1 <= n <= 10
  {
    if value <= 0 then DEFAULT_REPLICA_COUNT else if value > 10 then 10 else value
  }

  function NormalizedResourceProfile(value: string): string {
    var v := Lower(Trim(value));
    if v == "starter" then "starter"
    else if v == "performance" then "performance"
    else if v == "balanced" then "balanced"
    else DEFAULT_RESOURCE_PROFILE
  }

  function Min(x: real, y: real): real { if x <= y then x else y }
  function Max(x: real, y: real): real { if x <= y then y else x }

  function ProfileMultiplier(profile: string): real {
    if profile == "starter" then 0.9
    else if profile == "balanced" then 1.15
    else if profile == "performance" then 1.45
    else 1.0
  }

  function BaseReserve(serviceType: string, dedicated: bool): real {
    if serviceType == "loadbalancer" then (if dedicated then 0.85 + 0.75 else 0.85) else 0.45
  }

  function Scaled(base: real, profileMultiplier: real, replicaMultiplier: real): real {
    base * profileMultiplier * (0.85 + 0.15 * replicaMultiplier)
  }

  function EstimateRequiredDeployReserve(
    serviceType: string, dedicated: bool, spentThisMonth: real, replicaCount: int, resourceProfile: string): real
  {
    Scaled(BaseReserve(serviceType, dedicated),
           ProfileMultiplier(NormalizedResourceProfile(resourceProfile)),
           Max(1.0, NormalizedReplicaCount(replicaCount) as real))
    + Min(3.0, spentThisMonth * 0.08)
  }

  /** The least reserve: it is what keeps the 1e-9 cut-off of a release away from a live reservation. */
  const LEAST_RESERVE := 0.405
  const MOST_RESERVE := 8.452

  lemma ReserveBounds(serviceType: string, dedicated: bool, spent: real, replicas: int, profile: string)
    requires spent >= 0.0
    ensures LEAST_RESERVE <= EstimateRequiredDeployReserve(serviceType, dedicated, spent, replicas, profile) <= MOST_RESERVE
  {
    MultiplierBounds(NormalizedResourceProfile(profile));
    ScaledBounds(BaseReserve(serviceType, dedicated), ProfileMultiplier(NormalizedResourceProfile(profile)),
                 Max(1.0, NormalizedReplicaCount(replicas) as real));
  }

  lemma MultiplierBounds(profile: string)
    ensures 0.9 <= ProfileMultiplier(profile) <= 1.45
  {
  }

  lemma ScaledBounds(base: real, m: real, r: real)
    requires 0.45 <= base <= 1.6 && 0.9 <= m <= 1.45 && 1.0 <= r <= 10.0
    ensures 0.405 <= Scaled(base, m, r) <= 5.452
  {
    ScaledGrows(0.45, base, 0.9, m, 1.0, r);
    ScaledGrows(base, 1.6, m, 1.45, r, 10.0);
    ScaledExtremes();
  }

  lemma ScaledExtremes()
    ensures Scaled(0.45, 0.9, 1.0) == 0.405 && Scaled(1.6, 1.45, 10.0) == 5.452
  {
  }

  /** Both bounds are met, so neither can be tightened. */
  lemma ReserveBoundsAreTight()
    ensures EstimateRequiredDeployReserve("clusterip", false, 0.0, 1, "starter") == LEAST_RESERVE
    ensures EstimateRequiredDeployReserve("loadbalancer", true, 40.0, 10, "performance") == MOST_RESERVE
  {
    ProfileNames();
    ScaledExtremes();
  }

  lemma ProfileNames()
    ensures NormalizedResourceProfile("starter") == "starter"
    ensures NormalizedResourceProfile("performance") == "performance"
  {
    PlainProfile("starter");
    PlainProfile("performance");
  }

  lemma PlainProfile(profile: string)
    requires profile == "starter" || profile == "performance"
    requires forall i :: 0 <= i < |profile| ==> IsPlainChar(profile[i])
    ensures NormalizedResourceProfile(profile) == profile
  {
    PlainTextIsFixed(profile);
  }

  /** starter before balanced before performance. */
  function ProfileRank(profile: string): nat {
    var p := NormalizedResourceProfile(profile);
    if p == "starter" then 0 else if p == "balanced" then 1 else 2
  }

  lemma ReserveIsMonotone(
    serviceType: string,
    dedicated: bool, spent: real, replicas: int, profile: string,
    dedicated': bool, spent': real, replicas': int, profile': string)
    requires dedicated ==> dedicated'
    requires spent <= spent'
    requires NormalizedReplicaCount(replicas) <= NormalizedReplicaCount(replicas')
    requires ProfileRank(profile) <= ProfileRank(profile')
    ensures EstimateRequiredDeployReserve(serviceType, dedicated, spent, replicas, profile)
         <= EstimateRequiredDeployReserve(serviceType, dedicated', spent', replicas', profile')
  {
    ProfileMultiplierGrows(profile, profile');
    ScaledGrows(
      BaseReserve(serviceType, dedicated), BaseReserve(serviceType, dedicated'),
      ProfileMultiplier(NormalizedResourceProfile(profile)), ProfileMultiplier(NormalizedResourceProfile(profile')),
      Max(1.0, NormalizedReplicaCount(replicas) as real), Max(1.0, NormalizedReplicaCount(replicas') as real));
  }

  lemma ProfileMultiplierGrows(profile: string, profile': string)
    requires ProfileRank(profile) <= ProfileRank(profile')
    ensures 0.0 <= ProfileMultiplier(NormalizedResourceProfile(profile))
                <= ProfileMultiplier(NormalizedResourceProfile(profile'))
  {
  }

  lemma ScaledGrows(a: real, a': real, b: real, b': real, r: real, r': real)
    requires 0.0 <= a <= a' && 0.0 <= b <= b' && 0.0 <= r <= r'
    ensures Scaled(a, b, r) <= Scaled(a', b', r')
  {
    ProductGrows(a, a', b, b');
    ProductGrows(a * b, a' * b', 0.85 + 0.15 * r, 0.85 + 0.15 * r');
  }

  lemma ProductGrows(x: real, x': real, y: real, y': real)
    requires 0.0 <= x <= x' && 0.0 <= y <= y'
    ensures 0.0 <= x * y <= x' * y'
  {
    assert x' * y' - x * y == (x' - x) * y + x' * (y' - y);
  }
}
