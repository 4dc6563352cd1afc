/** The objects the APME Pod refers to. */
module PodReferences {
  import opened Options
  import opened Resolve
  import opened ObjectNames
  import opened Pod
  import opened PodWiring
  import opened PodVolumes

  ghost predicate UsesSecret(c: Container, secret: string) {
    exists e :: e in c.env && e.value.FromSecret? && e.value.secret == secret
  }

  function SourceRef(source: VolumeSource): Option<Key> {
    match source
    case Claim(claim) => Some(Key(PersistentVolumeClaim, claim))
    case EmptyDir => None
    case FromConfigMap(configMap) => Some(Key(ConfigMap, configMap))
    case ConfigMapFile(configMap, _, _) => Some(Key(ConfigMap, configMap))
    case SecretFile(secret, _, _) => Some(Key(Secret, secret))
  }

  /** The Pod names `k`: as service account, in a variable, or as the source of a volume. */
  ghost predicate Refers(pod: PodSpec, k: Key) {
    || k == Key(ServiceAccount, pod.serviceAccount)
    || (k.kind == Secret && exists c :: c in pod.containers + pod.inits && UsesSecret(c, k.name))
    || (exists v :: v in pod.volumes && SourceRef(v.source) == Some(k))
  }

  /** References whose names the operator chose itself. */
  ghost function OperatorRefs(d: Desired): set<Key> {
    {Key(ServiceAccount, d.name), Key(PersistentVolumeClaim, d.name + "-sessions"),
     Key(PersistentVolumeClaim, d.name + "-proxy-cache"), Key(Secret, d.proxy.tokenName)}
    + (if d.database.generate then {Key(Secret, d.database.secretName)} else {})
    + (if d.database.generate && d.database.generateTLS then {Key(Secret, d.database.tlsSecretName)} else {})
    + (if d.abbenay.enabled && d.abbenay.generateToken then {Key(Secret, d.abbenay.tokenName)} else {})
    + (if d.abbenay.enabled && d.abbenay.configMap == "" then {Key(ConfigMap, d.name + "-abbenay-config")} else {})
    + (if d.abbenay.enabled && d.abbenay.persist then {Key(PersistentVolumeClaim, d.name + "-abbenay-config")} else {})
  }

  /** References whose names the user gave in the spec. */
  ghost function UserRefs(d: Desired): set<Key> {
    (if d.database.generate then {} else {Key(Secret, d.database.secretName)})
    + (if d.database.generate && !d.database.generateTLS then {Key(Secret, d.database.tlsSecretName)} else {})
    + (if d.abbenay.enabled && !d.abbenay.generateToken then {Key(Secret, d.abbenay.tokenName)} else {})
    + (if d.abbenay.enabled && d.abbenay.configMap != "" then {Key(ConfigMap, d.abbenay.configMap)} else {})
    + (if d.proxy.caConfigMap != "" then {Key(ConfigMap, d.proxy.caConfigMap)} else {})
    + (set p | p in d.plugins && p.configMap != "" :: Key(ConfigMap, p.configMap))
  }

  // ---- Secrets in variables ----

  ghost predicate KnownSecret(d: Desired, secret: string) {
    secret == d.proxy.tokenName || secret == d.database.secretName || (d.abbenay.enabled && secret == d.abbenay.tokenName)
  }

  lemma EngineSecrets(d: Desired, e: EnvVar)
    requires e in EngineContainer(d).env && e.value.FromSecret?
    ensures KnownSecret(d, e.value.secret)
  {
    if e in EngineEnvFront(d) { EngineFrontSecrets(d, e); }
  }

  lemma EngineFrontSecrets(d: Desired, e: EnvVar)
    requires e in EngineEnvFront(d) && e.value.FromSecret?
    ensures e == AdminToken(d)
  {
    if e in EngineEnvFixed(d) { EngineFixedSecrets(d, e); }
  }

  lemma EngineFixedSecrets(d: Desired, e: EnvVar)
    requires e in EngineEnvFixed(d) && e.value.FromSecret?
    ensures e == AdminToken(d)
  {
  }

  lemma ValidatorSecrets(d: Desired, name: ContainerName, listen: string, port: int, more: seq<EnvVar>,
                         mounts: seq<Mount>, e: EnvVar)
    requires forall m :: m in more ==> m.value.Address?
    requires e in Validator(d, name, listen, port, more, mounts).env
    ensures !e.value.FromSecret?
  {
  }

  lemma FrontSecrets(d: Desired, c: Container, e: EnvVar)
    requires c in FrontContainers(d) && e in c.env && e.value.FromSecret?
    ensures KnownSecret(d, e.value.secret)
  {
    FrontMember(d, c);
    if c == EngineContainer(d) {
      EngineSecrets(d, e);
    } else {
      FrontValidatorSecrets(d, c, e);
    }
  }

  lemma FrontValidatorSecrets(d: Desired, c: Container, e: EnvVar)
    requires c == NativeContainer(d) || c == OPAContainer(d) || c == AnsibleContainer(d)
          || c == GitleaksContainer(d) || c == CollectionHealthContainer(d) || c == DepAuditContainer(d)
    requires e in c.env
    ensures !e.value.FromSecret?
  {
    if c == NativeContainer(d) {
      ValidatorSecrets(d, Native, "APME_NATIVE_VALIDATOR_LISTEN", 50055, [], [], e);
    } else if c == OPAContainer(d) {
      ValidatorSecrets(d, OPA, "APME_OPA_VALIDATOR_LISTEN", 50054, [], [], e);
    } else if c == AnsibleContainer(d) {
      ValidatorSecrets(d, Ansible, "APME_ANSIBLE_VALIDATOR_LISTEN", 50053,
                       [EnvVar(APME_GALAXY_PROXY_URL, Address("http://127.0.0.1", 8765))], SESSIONS, e);
    } else if c == GitleaksContainer(d) {
      ValidatorSecrets(d, Gitleaks, "APME_GITLEAKS_VALIDATOR_LISTEN", 50056, [], [], e);
    } else if c == CollectionHealthContainer(d) {
      ValidatorSecrets(d, CollectionHealth, "APME_COLLECTION_HEALTH_VALIDATOR_LISTEN", 50058, [], SESSIONS, e);
    } else {
      ValidatorSecrets(d, DepAudit, "APME_DEP_AUDIT_VALIDATOR_LISTEN", 50059, [], SESSIONS, e);
    }
  }

  lemma GalaxyProxySecrets(d: Desired, e: EnvVar)
    requires e in GalaxyProxyContainer(d).env && e.value.FromSecret?
    ensures KnownSecret(d, e.value.secret)
  {
  }

  lemma GatewaySecrets(d: Desired, e: EnvVar)
    requires e in GatewayContainer(d).env && e.value.FromSecret?
    ensures KnownSecret(d, e.value.secret)
  {
  }

  lemma AbbenaySecrets(d: Desired, e: EnvVar)
    requires d.abbenay.enabled && e in AbbenayContainer(d).env && e.value.FromSecret?
    ensures KnownSecret(d, e.value.secret)
  {
  }

  lemma BackSecrets(d: Desired, c: Container, e: EnvVar)
    requires c in BackContainers(d) && e in c.env && e.value.FromSecret?
    ensures KnownSecret(d, e.value.secret)
  {
    BackMember(d, c);
    if c == GalaxyProxyContainer(d) { GalaxyProxySecrets(d, e); }
    else if c == GatewayContainer(d) { GatewaySecrets(d, e); }
    else if d.abbenay.enabled && c == AbbenayContainer(d) { AbbenaySecrets(d, e); }
  }

  lemma InitSecrets(d: Desired, c: Container)
    requires c in Inits(d)
    ensures c.env == []
  {
  }

  lemma UsedSecretsKnown(d: Desired, c: Container, e: EnvVar)
    requires c in PodOf(d).containers + PodOf(d).inits && e in c.env && e.value.FromSecret?
    ensures KnownSecret(d, e.value.secret)
  {
    PodMember(d, c);
    if c in FrontContainers(d) { FrontSecrets(d, c, e); }
    else if c in BackContainers(d) { BackSecrets(d, c, e); }
    else if c in Inits(d) { InitSecrets(d, c); }
    else { PluginSecrets(d, c, e); }
  }

  lemma PodMember(d: Desired, c: Container)
    ensures c in PodOf(d).containers + PodOf(d).inits <==>
            c in FrontContainers(d) || c in PluginContainers(d, d.plugins) || c in BackContainers(d) || c in Inits(d)
  {
  }

  lemma PluginSecrets(d: Desired, c: Container, e: EnvVar)
    requires c in PluginContainers(d, d.plugins) && e in c.env
    ensures !e.value.FromSecret?
  {
  }

  lemma GatewayUses(d: Desired)
    ensures GatewayContainer(d) in PodOf(d).containers + PodOf(d).inits
    ensures UsesSecret(GatewayContainer(d), d.proxy.tokenName) && UsesSecret(GatewayContainer(d), d.database.secretName)
  {
    assert GatewayContainer(d) == BackContainers(d)[1];
    PodMember(d, GatewayContainer(d));
    GatewaySecretVars(d);
  }

  lemma GatewaySecretVars(d: Desired)
    ensures UsesSecret(GatewayContainer(d), d.proxy.tokenName) && UsesSecret(GatewayContainer(d), d.database.secretName)
  {
    var env := GatewayContainer(d).env;
    assert env[4] in env && env[5] in env;
  }

  lemma AbbenayUses(d: Desired)
    requires d.abbenay.enabled
    ensures AbbenayContainer(d) in PodOf(d).containers + PodOf(d).inits
    ensures UsesSecret(AbbenayContainer(d), d.abbenay.tokenName)
  {
    var c := AbbenayContainer(d);
    assert c in BackContainers(d);
    assert c.env[0] in c.env;
  }

  // ---- Sources of volumes ----

  lemma FrontSources(d: Desired, v: Volume, k: Key)
    requires v in FrontVolumes(d) && SourceRef(v.source) == Some(k)
    ensures k in OperatorRefs(d) + UserRefs(d)
  {
  }

  lemma PluginSources(d: Desired, v: Volume, k: Key)
    requires v in PluginVolumes(d.plugins) && SourceRef(v.source) == Some(k)
    ensures k in UserRefs(d)
  {
    PluginVolumeMembers(d.plugins);
  }

  lemma BackSources(d: Desired, v: Volume, k: Key)
    requires v in BackVolumes(d) && SourceRef(v.source) == Some(k)
    ensures k in OperatorRefs(d) + UserRefs(d)
  {
  }

  /** The Pod refers to nothing but what the operator generates and what the user named. */
  lemma RefersOnlyToKnown(d: Desired, k: Key)
    requires Refers(PodOf(d), k)
    ensures k in OperatorRefs(d) + UserRefs(d)
  {
    var pod := PodOf(d);
    if k != Key(ServiceAccount, pod.serviceAccount) {
      if k.kind == Secret && exists c :: c in pod.containers + pod.inits && UsesSecret(c, k.name) {
        var c :| c in pod.containers + pod.inits && UsesSecret(c, k.name);
        var e :| e in c.env && e.value.FromSecret? && e.value.secret == k.name;
        UsedSecretsKnown(d, c, e);
      } else {
        var v :| v in pod.volumes && SourceRef(v.source) == Some(k);
        if v in FrontVolumes(d) { FrontSources(d, v, k); }
        else if v in PluginVolumes(d.plugins) { PluginSources(d, v, k); }
        else { BackSources(d, v, k); }
      }
    }
  }

  lemma SourceIsReferred(d: Desired, v: Volume, k: Key)
    requires v in PodOf(d).volumes && SourceRef(v.source) == Some(k)
    ensures Refers(PodOf(d), k)
  {
  }

  lemma FrontClaims(d: Desired)
    ensures Refers(PodOf(d), Key(PersistentVolumeClaim, d.name + "-sessions"))
    ensures Refers(PodOf(d), Key(PersistentVolumeClaim, d.name + "-proxy-cache"))
  {
    var v, w := FrontVolumes(d)[0], FrontVolumes(d)[1];
    assert v in FrontVolumes(d) && w in FrontVolumes(d);
    SourceIsReferred(d, v, Key(PersistentVolumeClaim, d.name + "-sessions"));
    SourceIsReferred(d, w, Key(PersistentVolumeClaim, d.name + "-proxy-cache"));
  }

  lemma BackParts(d: Desired, v: Volume)
    requires v in DatabaseVolumes(d) || v in AbbenayVolumes(d)
    ensures v in PodOf(d).volumes
  {
    assert BackVolumes(d) == DatabaseVolumes(d) + UIVolumes(d) + AbbenayVolumes(d);
  }

  lemma TLSFiles(d: Desired)
    requires d.database.generate
    ensures Refers(PodOf(d), Key(Secret, d.database.tlsSecretName))
  {
    var v := DatabaseVolumes(d)[0];
    BackParts(d, v);
    SourceIsReferred(d, v, Key(Secret, d.database.tlsSecretName));
  }

  lemma AbbenayFiles(d: Desired)
    requires d.abbenay.enabled
    ensures Refers(PodOf(d), Key(ConfigMap, AbbenaySeed(d)))
    ensures d.abbenay.persist ==> Refers(PodOf(d), Key(PersistentVolumeClaim, d.name + "-abbenay-config"))
  {
    var v := AbbenayVolumes(d)[0];
    BackParts(d, v);
    SourceIsReferred(d, v, Key(ConfigMap, AbbenaySeed(d)));
    if d.abbenay.persist { AbbenayClaimIsReferred(d); }
  }

  lemma AbbenayClaimIsReferred(d: Desired)
    requires d.abbenay.enabled && d.abbenay.persist
    ensures Refers(PodOf(d), Key(PersistentVolumeClaim, d.name + "-abbenay-config"))
  {
    var w := AbbenayVolumes(d)[2];
    BackParts(d, w);
    SourceIsReferred(d, w, Key(PersistentVolumeClaim, d.name + "-abbenay-config"));
  }

  /** The Pod does refer to every object the operator generates for it. */
  lemma RefersToGenerated(d: Desired, k: Key)
    requires k in OperatorRefs(d)
    ensures Refers(PodOf(d), k)
  {
    GatewayUses(d);
    if d.abbenay.enabled {
      AbbenayUses(d);
      AbbenayFiles(d);
    }
    if d.database.generate { TLSFiles(d); }
    FrontClaims(d);
    GeneratedCases(d, k);
  }

  lemma GeneratedCases(d: Desired, k: Key)
    requires k in OperatorRefs(d)
    ensures k == Key(ServiceAccount, d.name) || k == Key(PersistentVolumeClaim, d.name + "-sessions")
         || k == Key(PersistentVolumeClaim, d.name + "-proxy-cache") || k == Key(Secret, d.proxy.tokenName)
         || (d.database.generate && (k == Key(Secret, d.database.secretName) || k == Key(Secret, d.database.tlsSecretName)))
         || (d.abbenay.enabled && (k == Key(Secret, d.abbenay.tokenName) || k == Key(ConfigMap, AbbenaySeed(d))))
         || (d.abbenay.enabled && d.abbenay.persist && k == Key(PersistentVolumeClaim, d.name + "-abbenay-config"))
  {
  }
}
