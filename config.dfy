/**
 * Version 1 of the CLI's Kurtosis configuration: its fields, the defaults,
 * validation, and the overlay of user overrides onto a base configuration.
 * Every field is optional (a nil pointer in the file format is `None`).
 */
module KurtosisConfig {
  import opened Wrappers

  const DockerType := "docker"
  const KubernetesType := "kubernetes"

  /** The number of configuration version 1 (the version enumeration is not part of this model). */
  const VersionNumber: int := 1

  const DefaultDockerClusterName := "docker"
  const DefaultMinikubeClusterName := "minikube"
  const DefaultMinikubeStorageClass := "standard"
  const DefaultMinikubeGigabytesPerEnclave := 2

  datatype KubernetesClusterConfigV1 = KubernetesClusterConfigV1(
    kubernetesClusterName: Option<string>,
    storageClass: Option<string>,
    enclaveSizeInGigabytes: Option<int>)

  datatype KurtosisClusterV1 = KurtosisClusterV1(clusterType: Option<string>, config: Option<KubernetesClusterConfigV1>)

  /** The fields of a whole configuration. */
  datatype ConfigFields = ConfigFields(
    configVersion: Option<int>,
    shouldSendMetrics: Option<bool>,
    kurtosisClusters: Option<map<string, KurtosisClusterV1>>)

  // ---------------------------------------------------------------------------
  // Defaults
  // ---------------------------------------------------------------------------

  /** The docker cluster: valid as it is, with no Kubernetes settings. */
  function DefaultDockerCluster(): (c: KurtosisClusterV1)
    ensures ClusterValid(c) && c.clusterType == Some(DockerType) && c.config.None?
  {
    KurtosisClusterV1(Some(DockerType), None)
  }

  function DefaultMinikubeKubernetesConfig(): KubernetesClusterConfigV1
  {
    KubernetesClusterConfigV1(Some(DefaultMinikubeClusterName), Some(DefaultMinikubeStorageClass), Some(DefaultMinikubeGigabytesPerEnclave))
  }

  /** The Minikube cluster: a valid Kubernetes cluster. */
  function DefaultMinikubeCluster(): (c: KurtosisClusterV1)
    ensures ClusterValid(c) && c.clusterType == Some(KubernetesType)
  {
    KurtosisClusterV1(Some(KubernetesType), Some(DefaultMinikubeKubernetesConfig()))
  }

  /** Version 1 with the single docker cluster, and no metrics choice: that one must come from the user. */
  function DefaultConfig(): (c: ConfigFields)
    ensures c.configVersion == Some(VersionNumber) && c.shouldSendMetrics.None?
    ensures c.kurtosisClusters.Some? && c.kurtosisClusters.value.Keys == {DefaultDockerClusterName}
    ensures forall id :: id in c.kurtosisClusters.value ==> ClusterValid(c.kurtosisClusters.value[id])
  {
    ConfigFields(Some(VersionNumber), None, Some(map[DefaultDockerClusterName := DefaultDockerCluster()]))
  }

  // ---------------------------------------------------------------------------
  // Validation
  // ---------------------------------------------------------------------------

  datatype ClusterError =
    | TypeNil                                   // "... has nil Type field, when it should be ..."
    | UnknownType(clusterType: string)          // "... has Type field '%v', when it should be ..."
    | NoConfig(clusterType: string)             // "... but has no Config field ..."
    | NoClusterName(clusterType: string)        // "... but has no Kubernetes cluster name ..."
    | NoStorageClass(clusterType: string)       // "... but has no StorageClass name ..."
    | NoEnclaveSize(clusterType: string)        // "... but has no EnclaveSizeInGigabytes ..."

  datatype ConfigError =
    | ShouldSendMetricsNil
    | ConfigVersionNil
    | WrongConfigVersion(version: int)
    | ClustersNil
    | NoClusters
    | ClusterInvalid(clusterId: string, cause: ClusterError)

  /** A valid cluster: docker needs nothing else; Kubernetes needs a config with all three settings. */
  predicate ClusterValid(c: KurtosisClusterV1)
  {
    c.clusterType == Some(DockerType) ||
    (c.clusterType == Some(KubernetesType) && c.config.Some? &&
     c.config.value.kubernetesClusterName.Some? &&
     c.config.value.storageClass.Some? &&
     c.config.value.enclaveSizeInGigabytes.Some?)
  }

  /** A valid configuration: metrics chosen, version 1, and a non-empty map of valid clusters. */
  predicate ConfigValid(c: ConfigFields)
  {
    c.shouldSendMetrics.Some? && c.configVersion == Some(VersionNumber) &&
    c.kurtosisClusters.Some? && |c.kurtosisClusters.value| > 0 &&
    forall id :: id in c.kurtosisClusters.value ==> ClusterValid(c.kurtosisClusters.value[id])
  }

  /** Checks one cluster; the first missing or wrong field is reported. */
  function ValidateCluster(c: KurtosisClusterV1): (r: Option<ClusterError>)
    ensures r.None? <==> ClusterValid(c)
    ensures c.clusterType.None? ==> r == Some(TypeNil)
    ensures c.clusterType.Some? && c.clusterType.value != DockerType && c.clusterType.value != KubernetesType ==>
      r == Some(UnknownType(c.clusterType.value))
    ensures c.clusterType == Some(KubernetesType) && c.config.None? ==> r == Some(NoConfig(KubernetesType))
  {
    if c.clusterType.None? then Some(TypeNil)
    else if c.clusterType.value != DockerType && c.clusterType.value != KubernetesType then Some(UnknownType(c.clusterType.value))
    else if c.clusterType.value == KubernetesType then
      if c.config.None? then Some(NoConfig(c.clusterType.value))
      else if c.config.value.kubernetesClusterName.None? then Some(NoClusterName(c.clusterType.value))
      else if c.config.value.storageClass.None? then Some(NoStorageClass(c.clusterType.value))
      else if c.config.value.enclaveSizeInGigabytes.None? then Some(NoEnclaveSize(c.clusterType.value))
      else None
    else None
  }

  /** The checks before the clusters are looked at one by one, in their order. */
  function ValidateFields(c: ConfigFields): (r: Option<ConfigError>)
    ensures r.None? <==>
      c.shouldSendMetrics.Some? && c.configVersion == Some(VersionNumber) &&
      c.kurtosisClusters.Some? && |c.kurtosisClusters.value| > 0
    ensures c.shouldSendMetrics.None? ==> r == Some(ShouldSendMetricsNil)
    ensures c.shouldSendMetrics.Some? && c.configVersion.Some? && c.configVersion.value != VersionNumber ==>
      r == Some(WrongConfigVersion(c.configVersion.value))
  {
    if c.shouldSendMetrics.None? then Some(ShouldSendMetricsNil)
    else if c.configVersion.None? then Some(ConfigVersionNil)
    else if c.configVersion.value != VersionNumber then Some(WrongConfigVersion(c.configVersion.value))
    else if c.kurtosisClusters.None? then Some(ClustersNil)
    else if |c.kurtosisClusters.value| == 0 then Some(NoClusters)
    else None
  }

  // ---------------------------------------------------------------------------
  // Overlays
  // ---------------------------------------------------------------------------

  /** A set override wins; an unset one keeps the base. */
  function Pick<T>(base: Option<T>, override: Option<T>): Option<T>
  {
    if override.Some? then override else base
  }

  /**
   * Overlays Kubernetes settings onto a base that may be absent. An absent
   * base behaves as one with nothing set, and stays absent when nothing is
   * overridden.
   */
  function OverlayKubernetes(base: Option<KubernetesClusterConfigV1>, overrides: KubernetesClusterConfigV1): (r: Option<KubernetesClusterConfigV1>)
    ensures r.None? <==> base.None? && !SetsAnything(overrides)
    // each setting is the override when one is set, and the base's otherwise
    ensures r.Some? ==>
      (overrides.kubernetesClusterName.Some? ==> r.value.kubernetesClusterName == overrides.kubernetesClusterName) &&
      (overrides.storageClass.Some? ==> r.value.storageClass == overrides.storageClass) &&
      (overrides.enclaveSizeInGigabytes.Some? ==> r.value.enclaveSizeInGigabytes == overrides.enclaveSizeInGigabytes)
    ensures base.Some? ==>
      (overrides.kubernetesClusterName.None? ==> r.value.kubernetesClusterName == base.value.kubernetesClusterName) &&
      (overrides.storageClass.None? ==> r.value.storageClass == base.value.storageClass) &&
      (overrides.enclaveSizeInGigabytes.None? ==> r.value.enclaveSizeInGigabytes == base.value.enclaveSizeInGigabytes)
  {
    if base.None? && !SetsAnything(overrides) then None
    else
      var b := if base.Some? then base.value else KubernetesClusterConfigV1(None, None, None);
      Some(KubernetesClusterConfigV1(
        Pick(b.kubernetesClusterName, overrides.kubernetesClusterName),
        Pick(b.storageClass, overrides.storageClass),
        Pick(b.enclaveSizeInGigabytes, overrides.enclaveSizeInGigabytes)))
  }

  predicate SetsAnything(overrides: KubernetesClusterConfigV1)
  {
    overrides.kubernetesClusterName.Some? || overrides.enclaveSizeInGigabytes.Some? || overrides.storageClass.Some?
  }

  function OverlayCluster(base: KurtosisClusterV1, overrides: KurtosisClusterV1): (r: KurtosisClusterV1)
    ensures overrides.clusterType.Some? ==> r.clusterType == overrides.clusterType
    ensures overrides.clusterType.None? ==> r.clusterType == base.clusterType
    ensures overrides.config.None? ==> r.config == base.config
    // Kubernetes overrides always leave Kubernetes settings, even on a base without them
    ensures overrides.config.Some? && SetsAnything(overrides.config.value) ==> r.config.Some?
  {
    KurtosisClusterV1(
      Pick(base.clusterType, overrides.clusterType),
      if overrides.config.Some? then OverlayKubernetes(base.config, overrides.config.value) else base.config)
  }

  /** The cluster map after an overlay: shared ids merged, new ids added, the others kept. */
  function OverlayClusters(base: map<string, KurtosisClusterV1>, overrides: map<string, KurtosisClusterV1>): map<string, KurtosisClusterV1>
  {
    map id | id in base.Keys + overrides.Keys :: MergedCluster(base, overrides, id)
  }

  function MergedCluster(base: map<string, KurtosisClusterV1>, overrides: map<string, KurtosisClusterV1>, id: string): KurtosisClusterV1
    requires id in base || id in overrides
  {
    if id in overrides then (if id in base then OverlayCluster(base[id], overrides[id]) else overrides[id])
    else base[id]
  }

  /** The whole configuration after an overlay; an absent base cluster map behaves as an empty one. */
  function OverlayConfig(base: ConfigFields, overrides: ConfigFields): (r: ConfigFields)
    ensures r.configVersion == base.configVersion
    // override clusters give a cluster map holding the base's ids and the overrides' ids
    ensures overrides.kurtosisClusters.Some? ==>
      r.kurtosisClusters.Some? &&
      forall id :: id in r.kurtosisClusters.value <==>
        id in overrides.kurtosisClusters.value || (base.kurtosisClusters.Some? && id in base.kurtosisClusters.value)
  {
    ConfigFields(
      base.configVersion,
      Pick(base.shouldSendMetrics, overrides.shouldSendMetrics),
      if overrides.kurtosisClusters.Some? then
        Some(OverlayClusters(if base.kurtosisClusters.Some? then base.kurtosisClusters.value else map[], overrides.kurtosisClusters.value))
      else base.kurtosisClusters)
  }

  /** Every field of an overlaid configuration is the override when one is set and the base otherwise; the version never changes. */
  lemma OverlayConfigFields(base: ConfigFields, overrides: ConfigFields)
    ensures OverlayConfig(base, overrides).configVersion == base.configVersion
    ensures OverlayConfig(base, overrides).shouldSendMetrics ==
      if overrides.shouldSendMetrics.Some? then overrides.shouldSendMetrics else base.shouldSendMetrics
    ensures overrides.kurtosisClusters.None? ==> OverlayConfig(base, overrides).kurtosisClusters == base.kurtosisClusters
  {
  }

  /** Clusters in both maps are merged field by field, new ones inserted, and the others unchanged. */
  lemma OverlayClustersEntries(base: map<string, KurtosisClusterV1>, overrides: map<string, KurtosisClusterV1>, id: string)
    ensures id in OverlayClusters(base, overrides) <==> id in base || id in overrides
    ensures id in base && id in overrides ==>
      var c := OverlayClusters(base, overrides)[id];
      c.clusterType == (if overrides[id].clusterType.Some? then overrides[id].clusterType else base[id].clusterType) &&
      (overrides[id].config.None? ==> c.config == base[id].config)
    ensures id !in base && id in overrides ==> OverlayClusters(base, overrides)[id] == overrides[id]
    ensures id in base && id !in overrides ==> OverlayClusters(base, overrides)[id] == base[id]
  {
  }

  /** Overlaying the same overrides twice is the same as overlaying them once. */
  lemma {:induction false} OverlayConfigIdempotent(base: ConfigFields, overrides: ConfigFields)
    ensures OverlayConfig(OverlayConfig(base, overrides), overrides) == OverlayConfig(base, overrides)
  {
    if overrides.kurtosisClusters.Some? {
      var o := overrides.kurtosisClusters.value;
      var b := if base.kurtosisClusters.Some? then base.kurtosisClusters.value else map[];
      var once := OverlayClusters(b, o);
      forall id | id in once
        ensures OverlayClusters(once, o)[id] == once[id]
      {
        if id in o {
          OverlayClusterIdempotent(if id in b then b[id] else o[id], o[id]);
          if id !in b {
            OverlayClusterOnItself(o[id]);
          }
        }
      }
      assert OverlayClusters(once, o) == once;
    }
  }

  lemma OverlayClusterIdempotent(base: KurtosisClusterV1, overrides: KurtosisClusterV1)
    ensures OverlayCluster(OverlayCluster(base, overrides), overrides) == OverlayCluster(base, overrides)
  {
  }

  lemma OverlayClusterOnItself(c: KurtosisClusterV1)
    ensures OverlayCluster(c, c) == c
  {
  }

  /** Overrides with nothing set change nothing. */
  lemma OverlayNothing(base: ConfigFields)
    ensures OverlayConfig(base, ConfigFields(None, None, None)) == base
  {
  }

  // ---------------------------------------------------------------------------
  // The overlay as written
  // ---------------------------------------------------------------------------

  /**
   * The Kubernetes overlay as written: a method called on a nil base, which
   * dereferences it as soon as one override is set. `None` is that panic;
   * otherwise the result is the (possibly still absent) settings.
   */
  function OverlayKubernetesAsWritten(base: Option<KubernetesClusterConfigV1>, overrides: KubernetesClusterConfigV1): (r: Option<Option<KubernetesClusterConfigV1>>)
    ensures base.Some? ==> r == Some(OverlayKubernetes(base, overrides))
  {
    if base.None? then
      if overrides.kubernetesClusterName.Some? || overrides.enclaveSizeInGigabytes.Some? || overrides.storageClass.Some? then None
      else Some(None)
    else
      var b := base.value;
      Some(Some(KubernetesClusterConfigV1(
        Pick(b.kubernetesClusterName, overrides.kubernetesClusterName),
        Pick(b.storageClass, overrides.storageClass),
        Pick(b.enclaveSizeInGigabytes, overrides.enclaveSizeInGigabytes))))
  }

  /** The cluster overlay as written panics (`None`) exactly when it sets a Kubernetes setting on a cluster without them. */
  function OverlayClusterAsWritten(base: KurtosisClusterV1, overrides: KurtosisClusterV1): (r: Option<KurtosisClusterV1>)
    ensures r.None? <==> overrides.config.Some? && base.config.None? && SetsAnything(overrides.config.value)
  {
    if overrides.config.Some? then
      match OverlayKubernetesAsWritten(base.config, overrides.config.value)
      case None => None
      case Some(config) => Some(KurtosisClusterV1(Pick(base.clusterType, overrides.clusterType), config))
    else Some(KurtosisClusterV1(Pick(base.clusterType, overrides.clusterType), base.config))
  }

  /**
   * The configuration overlay as written: the base cluster map is
   * dereferenced whenever override clusters are given, and each shared
   * cluster goes through the cluster overlay as written. `None` is a panic.
   */
  function OverlayConfigAsWritten(base: ConfigFields, overrides: ConfigFields): (r: Option<ConfigFields>)
    // it panics exactly when override clusters meet a missing base cluster map, or a shared
    // cluster without Kubernetes settings that the override sets
    ensures r.None? <==>
      overrides.kurtosisClusters.Some? &&
      (base.kurtosisClusters.None? ||
       exists id :: id in overrides.kurtosisClusters.value && id in base.kurtosisClusters.value &&
         base.kurtosisClusters.value[id].config.None? && overrides.kurtosisClusters.value[id].config.Some? &&
         SetsAnything(overrides.kurtosisClusters.value[id].config.value))
  {
    if overrides.kurtosisClusters.None? then Some(OverlayConfig(base, overrides))
    else if base.kurtosisClusters.None? then None
    else
      var b, o := base.kurtosisClusters.value, overrides.kurtosisClusters.value;
      if exists id | id in o :: id in b && OverlayClusterAsWritten(b[id], o[id]).None? then None
      else Some(OverlayConfig(base, overrides))
  }

  /** Wherever the overlay as written does not panic, it agrees with the corrected overlay. */
  lemma {:induction false} AsWrittenAgreesWhenItSucceeds(base: ConfigFields, overrides: ConfigFields)
    requires OverlayConfigAsWritten(base, overrides).Some?
    ensures OverlayConfigAsWritten(base, overrides) == Some(OverlayConfig(base, overrides))
  {
  }

  /** A shared cluster that does not panic is overlaid as the corrected overlay does. */
  lemma ClusterAsWrittenAgrees(base: KurtosisClusterV1, overrides: KurtosisClusterV1)
    requires OverlayClusterAsWritten(base, overrides).Some?
    ensures OverlayClusterAsWritten(base, overrides) == Some(OverlayCluster(base, overrides))
  {
  }

  /**
   * A base without a cluster map, overlaid with one cluster, panics as
   * written; corrected, the override's clusters become the map.
   */
  lemma MissingBaseClustersPanics()
    ensures var base := ConfigFields(Some(VersionNumber), Some(true), None);
            var overrides := ConfigFields(None, None, Some(map[DefaultDockerClusterName := DefaultDockerCluster()]));
            OverlayConfigAsWritten(base, overrides).None? &&
            OverlayConfig(base, overrides).kurtosisClusters == overrides.kurtosisClusters
  {
    var overrides := ConfigFields(None, None, Some(map[DefaultDockerClusterName := DefaultDockerCluster()]));
    var m := map[DefaultDockerClusterName := DefaultDockerCluster()];
    assert OverlayClusters(map[], m) == m;
  }

  /**
   * The default docker cluster has no Kubernetes settings; overriding its
   * cluster name panics as written. Corrected, the override's settings are
   * taken as they are.
   */
  lemma MissingBaseKubernetesConfigPanics()
    ensures var base := DefaultDockerCluster();
            var settings := KubernetesClusterConfigV1(Some(DefaultMinikubeClusterName), None, None);
            var overrides := KurtosisClusterV1(None, Some(settings));
            OverlayClusterAsWritten(base, overrides).None? &&
            OverlayCluster(base, overrides) == KurtosisClusterV1(Some(DockerType), Some(settings))
  {
  }

  /** Corrected: a base without a cluster map takes the override's clusters as they are. */
  lemma OverlayOntoNoClusters(base: ConfigFields, overrides: ConfigFields)
    requires base.kurtosisClusters.None? && overrides.kurtosisClusters.Some?
    ensures OverlayConfig(base, overrides).kurtosisClusters == overrides.kurtosisClusters
  {
    var m := overrides.kurtosisClusters.value;
    assert OverlayClusters(map[], m) == m by {
      forall id | id in m
        ensures OverlayClusters(map[], m)[id] == m[id]
      {
        assert MergedCluster(map[], m, id) == m[id];
      }
    }
  }

  /** Corrected: an absent base takes the override's settings as they are, once one is set. */
  lemma OverlayKubernetesOntoNothing(overrides: KubernetesClusterConfigV1)
    ensures SetsAnything(overrides) ==> OverlayKubernetes(None, overrides) == Some(overrides)
    ensures !SetsAnything(overrides) ==> OverlayKubernetes(None, overrides).None?
  {
  }

  /**
   * Overlays override clusters onto a base cluster map one id at a time (in
   * the map's unspecified order): a shared cluster is merged, a new one added.
   */
  method OverlayClusterMap(base: map<string, KurtosisClusterV1>, overrides: map<string, KurtosisClusterV1>)
    returns (merged: map<string, KurtosisClusterV1>)
    ensures merged == OverlayClusters(base, overrides)
  {
    merged := base;
    var remaining := overrides.Keys;
    while remaining != {}
      invariant remaining <= overrides.Keys
      invariant MergedSoFar(merged, base, overrides, overrides.Keys - remaining)
      decreases |remaining|
    {
      var clusterId :| clusterId in remaining;
      ghost var done := overrides.Keys - remaining;
      OverlayStep(merged, base, overrides, done, clusterId);
      assert overrides.Keys - (remaining - {clusterId}) == done + {clusterId};
      var overlaid := if clusterId in merged then OverlayCluster(merged[clusterId], overrides[clusterId]) else overrides[clusterId];
      merged := merged[clusterId := overlaid];
      remaining := remaining - {clusterId};
    }
    SameClusterMap(merged, base, overrides);
  }

  /** `merged` is the base with the overrides of the ids in `done` applied. */
  ghost predicate MergedSoFar(merged: map<string, KurtosisClusterV1>, base: map<string, KurtosisClusterV1>,
                        overrides: map<string, KurtosisClusterV1>, done: set<string>)
  {
    done <= overrides.Keys &&
    (forall id :: id in merged <==> id in base || id in done) &&
    forall id :: id in merged ==> merged[id] == if id in done then MergedCluster(base, overrides, id) else base[id]
  }

  lemma OverlayStep(merged: map<string, KurtosisClusterV1>, base: map<string, KurtosisClusterV1>,
                    overrides: map<string, KurtosisClusterV1>, done: set<string>, id: string)
    requires MergedSoFar(merged, base, overrides, done) && id in overrides && id !in done
    ensures MergedSoFar(merged[id := if id in merged then OverlayCluster(merged[id], overrides[id]) else overrides[id]],
                        base, overrides, done + {id})
  {
  }

  lemma SameClusterMap(merged: map<string, KurtosisClusterV1>, base: map<string, KurtosisClusterV1>, overrides: map<string, KurtosisClusterV1>)
    requires MergedSoFar(merged, base, overrides, overrides.Keys)
    ensures merged == OverlayClusters(base, overrides)
  {
  }

  // ---------------------------------------------------------------------------
  // The configuration object
  // ---------------------------------------------------------------------------

  class KurtosisConfigV1 {
    var configVersion: Option<int>
    var shouldSendMetrics: Option<bool>
    var kurtosisClusters: Option<map<string, KurtosisClusterV1>>

    function Fields(): ConfigFields
      reads this
    {
      ConfigFields(configVersion, shouldSendMetrics, kurtosisClusters)
    }

    constructor (fields: ConfigFields)
      ensures Fields() == fields
    {
      configVersion := fields.configVersion;
      shouldSendMetrics := fields.shouldSendMetrics;
      kurtosisClusters := fields.kurtosisClusters;
    }

    /**
     * Validates the configuration: the fixed checks in order, then every
     * cluster, stopping at the first invalid one (in the map's unspecified order).
     */
    method Validate() returns (err: Option<ConfigError>)
      ensures err.None? <==> ConfigValid(Fields())
      ensures ValidateFields(Fields()).Some? ==> err == ValidateFields(Fields())
      ensures ValidateFields(Fields()).None? && err.Some? ==>
        err.value.ClusterInvalid? && err.value.clusterId in kurtosisClusters.value &&
        ValidateCluster(kurtosisClusters.value[err.value.clusterId]) == Some(err.value.cause)
    {
      err := ValidateFields(Fields());
      if err.Some? {
        return;
      }
      var clusters := kurtosisClusters.value;
      var remaining := clusters.Keys;
      while err.None? && remaining != {}
        invariant remaining <= clusters.Keys
        invariant forall id :: id in clusters && id !in remaining ==> ClusterValid(clusters[id])
        invariant err.Some? ==>
          err.value.ClusterInvalid? && err.value.clusterId in clusters &&
          ValidateCluster(clusters[err.value.clusterId]) == Some(err.value.cause)
        decreases |remaining|, if err.None? then 1 else 0
      {
        var clusterId :| clusterId in remaining;
        var clusterErr := ValidateCluster(clusters[clusterId]);
        if clusterErr.Some? {
          err := Some(ClusterInvalid(clusterId, clusterErr.value));
        } else {
          remaining := remaining - {clusterId};
        }
      }
    }

    /**
     * Overlays the overrides onto this configuration in place and returns it.
     * Shared clusters are merged, new ones added; a missing base cluster map
     * or Kubernetes config is treated as empty.
     */
    method OverlayOverrides(overrides: ConfigFields) returns (r: KurtosisConfigV1)
      modifies this
      ensures r == this
      ensures Fields() == OverlayConfig(old(Fields()), overrides)
    {
      if overrides.shouldSendMetrics.Some? {
        shouldSendMetrics := overrides.shouldSendMetrics;
      }
      if overrides.kurtosisClusters.Some? {
        var baseClusterMap := if kurtosisClusters.Some? then kurtosisClusters.value else map[];
        baseClusterMap := OverlayClusterMap(baseClusterMap, overrides.kurtosisClusters.value);
        kurtosisClusters := Some(baseClusterMap);
      }
      r := this;
    }
  }

  // ---------------------------------------------------------------------------
  // Properties of the defaults and of validation
  // ---------------------------------------------------------------------------

  /** The default configuration fails validation only for its missing metrics choice. */
  lemma DefaultConfigNeedsMetricsChoice(choice: bool)
    ensures ValidateFields(DefaultConfig()) == Some(ShouldSendMetricsNil)
    ensures !ConfigValid(DefaultConfig())
    ensures ConfigValid(DefaultConfig().(shouldSendMetrics := Some(choice)))
  {
    var c := DefaultConfig().(shouldSendMetrics := Some(choice));
    assert c.kurtosisClusters.value.Keys == {DefaultDockerClusterName};
  }

  /** The default Minikube cluster is a valid Kubernetes cluster. */
  lemma DefaultMinikubeClusterValid()
    ensures ValidateCluster(DefaultMinikubeCluster()).None?
    ensures DefaultMinikubeCluster().clusterType == Some(KubernetesType)
  {
  }

  /** A Kubernetes cluster is valid exactly when every one of its settings is present. */
  lemma KubernetesClusterNeedsAllSettings(config: KubernetesClusterConfigV1)
    ensures ClusterValid(KurtosisClusterV1(Some(KubernetesType), Some(config))) <==>
      config.kubernetesClusterName.Some? && config.storageClass.Some? && config.enclaveSizeInGigabytes.Some?
    ensures !ClusterValid(KurtosisClusterV1(Some(KubernetesType), None))
  {
  }

  /** Validity survives an overlay that sets only the metrics choice. */
  lemma MetricsOverlayKeepsValidity(base: ConfigFields, choice: bool)
    requires ConfigValid(base)
    ensures ConfigValid(OverlayConfig(base, ConfigFields(None, Some(choice), None)))
  {
  }
}
