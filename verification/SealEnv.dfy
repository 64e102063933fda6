/**
 The seal attributes as environment variables (the sealAttrEnvVarTranslator family of
 internal/plugin/resource_vault_start.go). strings.ToUpper is modelled on ASCII letters.
 */
module SealEnv {
  import opened Wrappers
  import opened TfValues
  import opened Orders
  import opened Decimals

  const SEAL_TYPE := "VAULT_SEAL_TYPE"

  function UpperChar(c: char): char {
    if 'a' <= c <= 'z' then (c as int - 32) as char else c
  }

  function Upper(s: string): string {
    seq(|s|, i requires 0 <= i < |s| => UpperChar(s[i]))
  }

  predicate LowerCase(s: string) {
    forall i :: 0 <= i < |s| ==> !('A' <= s[i] <= 'Z')
  }

  /** Where an attribute goes. */
  datatype Target = Var(name: string) | Dropped | Unsupported

  predicate IsLabel(key: string) {
    key == "name" || key == "priority"
  }

  function AliCloudKMS(key: string): Target {
    if key == "kms_key_id" then Var("VAULT_ALICLOUDKMS_SEAL_" + "KEY_ID")
    else if IsLabel(key) then Dropped
    else Var("ALICLOUD_" + Upper(key))
  }

  function AWSKMS(key: string): Target {
    if key == "kms_key_id" then Var("VAULT_AWSKMS_SEAL_" + "KEY_ID")
    else if key == "secret_key" then Var("AWS_" + "SECRET_ACCESS_KEY")
    else if IsLabel(key) then Dropped
    else Var("AWS_" + Upper(key))
  }

  function AzureKeyVault(key: string): Target {
    if key == "vault_name" || key == "key_name" then Var("VAULT_AZUREKEYVAULT_" + Upper(key))
    else if key == "resource" then Var("AZURE_" + "AD_RESOURCE")
    else if IsLabel(key) then Dropped
    else Var("AZURE_" + Upper(key))
  }

  function GCPKMS(key: string): Target {
    if key == "key_ring" || key == "crypto_ring" || key == "crypto_key" then Var("VAULT_GCPCKMS_SEAL_" + Upper(key))
    else if IsLabel(key) then Dropped
    else Var("GOOGLE_" + Upper(key))
  }

  function PKCS11(key: string): Target {
    if key == "default_hmac_key_label" then Var("VAULT_HSM_" + "HMAC_DEFAULT_KEY_LABEL")
    else if IsLabel(key) then Dropped
    else Var("VAULT_HSM_" + Upper(key))
  }

  function OCIKMS(key: string): Target {
    if key == "key_id" then Var("VAULT_OCIKMS_" + "SEAL_KEY_ID")
    else if IsLabel(key) then Dropped
    else Var("VAULT_OCIKMS_" + Upper(key))
  }

  function TrimTLS(key: string): string {
    if "tls_" <= key then key[4..] else key
  }

  function Transit(key: string): Target {
    if key == "address" then Var("VAULT_" + "ADDR")
    else if key == "token" || key == "namespace" then Var("VAULT_" + Upper(key))
    else if key == "key_name" || key == "mount_path" || key == "disable_renewal" then
      Var("VAULT_TRANSIT_SEAL_" + Upper(key))
    else if key == "tls_ca_cert" || key == "tls_client_cert" || key == "tls_client_key" || key == "tls_skip_verify" then
      Var("VAULT_" + Upper(TrimTLS(key)))
    else if key == "tls_server_name" then Var("VAULT_" + "TLS_SERVER_NAME")
    else if key == "key_id_prefix" || IsLabel(key) then Dropped
    else Unsupported
  }

  datatype Seal = AliCloud | AWS | Azure | GCP | OCI | HSM | TransitSeal

  function SealOf(sealType: string): Option<Seal> {
    if sealType == "alicloudkms" then Some(AliCloud)
    else if sealType == "awskms" then Some(AWS)
    else if sealType == "azurekeyvault" then Some(Azure)
    else if sealType == "gcpckms" then Some(GCP)
    else if sealType == "ocikms" then Some(OCI)
    else if sealType == "pkcs11" then Some(HSM)
    else if sealType == "transit" then Some(TransitSeal)
    else None
  }

  function TargetOf(seal: Seal, key: string): Target {
    match seal
    case AliCloud => AliCloudKMS(key)
    case AWS => AWSKMS(key)
    case Azure => AzureKeyVault(key)
    case GCP => GCPKMS(key)
    case OCI => OCIKMS(key)
    case HSM => PKCS11(key)
    case TransitSeal => Transit(key)
  }

  // ---------------------------------------------------------------------------------------------
  // Which attributes share a variable

  /** The two keys of a seal that set the same variable, the alias and the key it stands for. */
  function AliasOf(seal: Seal): Option<(string, string)> {
    match seal
    case AWS => Some(("secret_key", "secret_access_key"))
    case Azure => Some(("resource", "ad_resource"))
    case OCI => Some(("key_id", "seal_key_id"))
    case HSM => Some(("default_hmac_key_label", "hmac_default_key_label"))
    case AliCloud => None
    case GCP => None
    case TransitSeal => None
  }

  predicate AliasPair(seal: Seal, k: string, k': string) {
    var a := AliasOf(seal);
    a.Some? && ((k, k') == a.value || (k', k) == a.value)
  }

  /** The part of the variable that the attribute does not determine, in lower case. */
  function Prefix(seal: Seal, key: string): string {
    match seal
    case AliCloud => if key == "kms_key_id" then "vault_alicloudkms_seal_" else "alicloud_"
    case AWS => if key == "kms_key_id" then "vault_awskms_seal_" else "aws_"
    case Azure => if key == "vault_name" || key == "key_name" then "vault_azurekeyvault_" else "azure_"
    case GCP =>
      if key == "key_ring" || key == "crypto_ring" || key == "crypto_key" then "vault_gcpckms_seal_" else "google_"
    case OCI => "vault_ocikms_"
    case HSM => "vault_hsm_"
    case TransitSeal =>
      if key == "key_name" || key == "mount_path" || key == "disable_renewal" then "vault_transit_seal_" else "vault_"
  }

  /** What the variable calls the attribute, in lower case. */
  function Renamed(seal: Seal, key: string): string {
    match seal
    case AliCloud => if key == "kms_key_id" then "key_id" else key
    case AWS => if key == "kms_key_id" then "key_id" else if key == "secret_key" then "secret_access_key" else key
    case Azure => if key == "resource" then "ad_resource" else key
    case GCP => key
    case OCI => if key == "key_id" then "seal_key_id" else key
    case HSM => if key == "default_hmac_key_label" then "hmac_default_key_label" else key
    case TransitSeal =>
      if key == "address" then "addr"
      else if key == "tls_ca_cert" || key == "tls_client_cert" || key == "tls_client_key"
              || key == "tls_skip_verify" then
        TrimTLS(key)
      else key
  }

  /** The name of the variable in lower case. */
  function LowName(seal: Seal, key: string): string {
    Prefix(seal, key) + Renamed(seal, key)
  }

  lemma UpperAppend(s: string, t: string)
    ensures Upper(s + t) == Upper(s) + Upper(t)
  {
  }

  lemma UpperInjective(s: string, t: string)
    requires LowerCase(s) && LowerCase(t) && Upper(s) == Upper(t)
    ensures s == t
  {
    assert forall i :: 0 <= i < |s| ==> UpperChar(s[i]) == Upper(s)[i] == Upper(t)[i] == UpperChar(t[i]);
  }

  // The fixed parts of the names, each on its own.

  lemma UpAliCloud()
    ensures Upper("alicloud_") == "ALICLOUD_" && LowerCase("alicloud_")
  {
  }

  lemma UpAliCloudSeal()
    ensures Upper("vault_alicloudkms_seal_") == "VAULT_ALICLOUDKMS_SEAL_" && LowerCase("vault_alicloudkms_seal_")
  {
  }

  lemma UpAWS()
    ensures Upper("aws_") == "AWS_" && LowerCase("aws_")
  {
  }

  lemma UpAWSSeal()
    ensures Upper("vault_awskms_seal_") == "VAULT_AWSKMS_SEAL_" && LowerCase("vault_awskms_seal_")
  {
  }

  lemma UpAzure()
    ensures Upper("azure_") == "AZURE_" && LowerCase("azure_")
  {
  }

  lemma UpAzureVault()
    ensures Upper("vault_azurekeyvault_") == "VAULT_AZUREKEYVAULT_" && LowerCase("vault_azurekeyvault_")
  {
  }

  lemma UpGoogle()
    ensures Upper("google_") == "GOOGLE_" && LowerCase("google_")
  {
  }

  lemma UpGCPSeal()
    ensures Upper("vault_gcpckms_seal_") == "VAULT_GCPCKMS_SEAL_" && LowerCase("vault_gcpckms_seal_")
  {
  }

  lemma UpOCI()
    ensures Upper("vault_ocikms_") == "VAULT_OCIKMS_" && LowerCase("vault_ocikms_")
  {
  }

  lemma UpHSM()
    ensures Upper("vault_hsm_") == "VAULT_HSM_" && LowerCase("vault_hsm_")
  {
  }

  lemma UpVault()
    ensures Upper("vault_") == "VAULT_" && LowerCase("vault_")
  {
  }

  lemma UpTransitSeal()
    ensures Upper("vault_transit_seal_") == "VAULT_TRANSIT_SEAL_" && LowerCase("vault_transit_seal_")
  {
  }

  lemma UpKeyID()
    ensures Upper("key_id") == "KEY_ID" && LowerCase("key_id")
  {
  }

  lemma UpSecretAccessKey()
    ensures Upper("secret_access_key") == "SECRET_ACCESS_KEY" && LowerCase("secret_access_key")
  {
  }

  lemma UpADResource()
    ensures Upper("ad_resource") == "AD_RESOURCE" && LowerCase("ad_resource")
  {
  }

  lemma UpSealKeyID()
    ensures Upper("seal_key_id") == "SEAL_KEY_ID" && LowerCase("seal_key_id")
  {
  }

  lemma UpHMACLabel()
    ensures Upper("hmac_default_key_label") == "HMAC_DEFAULT_KEY_LABEL" && LowerCase("hmac_default_key_label")
  {
  }

  lemma UpAddr()
    ensures Upper("addr") == "ADDR" && LowerCase("addr")
  {
  }

  lemma UpTLSServerName()
    ensures Upper("tls_server_name") == "TLS_SERVER_NAME" && LowerCase("tls_server_name")
  {
  }

  /** Every variable is its lower-case name in upper case. */
  lemma {:induction false} NameIsUpper(seal: Seal, key: string)
    ensures TargetOf(seal, key).Var? ==> TargetOf(seal, key).name == Upper(LowName(seal, key))
  {
    hide Upper, LowerCase;
    UpperAppend(Prefix(seal, key), Renamed(seal, key));
    match seal
    case AliCloud =>
      UpAliCloud();
      UpAliCloudSeal();
      UpKeyID();
    case AWS =>
      UpAWS();
      UpAWSSeal();
      UpKeyID();
      UpSecretAccessKey();
    case Azure =>
      UpAzure();
      UpAzureVault();
      UpADResource();
    case GCP =>
      UpGoogle();
      UpGCPSeal();
    case OCI =>
      UpOCI();
      UpSealKeyID();
    case HSM =>
      UpHSM();
      UpHMACLabel();
    case TransitSeal =>
      UpVault();
      UpTransitSeal();
      UpAddr();
      UpTLSServerName();
  }

  lemma PrefixCancels(p: string, s: string, t: string)
    ensures p + s == p + t <==> s == t
  {
    assert (p + s)[|p|..] == s && (p + t)[|p|..] == t;
  }

  /** Different prefixes of one seal differ in their first letter, and only an alias is renamed to another key. */
  lemma PlainInjective(seal: Seal, k: string, k': string)
    requires !seal.TransitSeal? && k != k' && TargetOf(seal, k).Var? && TargetOf(seal, k').Var?
    ensures LowName(seal, k) == LowName(seal, k') <==> AliasPair(seal, k, k')
  {
    hide Upper;
    PrefixCancels(Prefix(seal, k), Renamed(seal, k), Renamed(seal, k'));
    PlainPrefixes(seal, k, k');
    assert Prefix(seal, k) != "" && Prefix(seal, k') != "";
    assert LowName(seal, k)[0] == Prefix(seal, k)[0] && LowName(seal, k')[0] == Prefix(seal, k')[0];
  }

  lemma PlainPrefixes(seal: Seal, k: string, k': string)
    requires !seal.TransitSeal?
    ensures Prefix(seal, k) != "" && Prefix(seal, k') != ""
    ensures Prefix(seal, k) == Prefix(seal, k') || Prefix(seal, k)[0] != Prefix(seal, k')[0]
  {
  }

  lemma TransitInjective(k: string, k': string)
    requires k != k' && Transit(k).Var? && Transit(k').Var?
    ensures LowName(TransitSeal, k) != LowName(TransitSeal, k')
  {
    hide Upper;
    TransitLength(k);
    TransitLength(k');
    TransitSeventh();
  }

  /** The eleven transit variables differ in length, but for two that differ in a letter. */
  lemma TransitLength(k: string)
    requires Transit(k).Var?
    ensures var low := LowName(TransitSeal, k);
            |low| == (
              if k == "address" then 10 else if k == "token" then 11 else if k == "namespace" then 15
              else if k == "key_name" then 27 else if k == "mount_path" then 29 else if k == "disable_renewal" then 34
              else if k == "tls_ca_cert" then 13 else if k == "tls_client_cert" then 17
              else if k == "tls_client_key" then 16 else if k == "tls_skip_verify" then 17 else 21)
  {
    hide Upper;
  }

  lemma TransitSeventh()
    ensures |LowName(TransitSeal, "tls_client_cert")| > 6 && LowName(TransitSeal, "tls_client_cert")[6] == 'c'
    ensures |LowName(TransitSeal, "tls_skip_verify")| > 6 && LowName(TransitSeal, "tls_skip_verify")[6] == 's'
  {
  }

  lemma LowerAppend(s: string, t: string)
    requires LowerCase(s) && LowerCase(t)
    ensures LowerCase(s + t)
  {
  }

  lemma TrimIsLower(k: string)
    requires LowerCase(k)
    ensures LowerCase(TrimTLS(k))
  {
  }

  lemma LowNameIsLower(seal: Seal, k: string)
    requires LowerCase(k)
    ensures LowerCase(LowName(seal, k))
  {
    hide LowerCase, Upper, TrimTLS;
    UpAliCloud();
    UpAliCloudSeal();
    UpAWS();
    UpAWSSeal();
    UpAzure();
    UpAzureVault();
    UpGoogle();
    UpGCPSeal();
    UpOCI();
    UpHSM();
    UpVault();
    UpTransitSeal();
    UpKeyID();
    UpSecretAccessKey();
    UpADResource();
    UpSealKeyID();
    UpHMACLabel();
    UpAddr();
    TrimIsLower(k);
    LowerAppend(Prefix(seal, k), Renamed(seal, k));
  }

  /** Two attributes with lower-case keys set the same variable exactly when one is the alias of the other. */
  lemma SharesVariableIff(seal: Seal, k: string, k': string)
    requires LowerCase(k) && LowerCase(k') && k != k' && TargetOf(seal, k).Var? && TargetOf(seal, k').Var?
    ensures TargetOf(seal, k) == TargetOf(seal, k') <==> AliasPair(seal, k, k')
  {
    hide Upper, TargetOf, LowName, LowerCase;
    NameIsUpper(seal, k);
    NameIsUpper(seal, k');
    LowNameIsLower(seal, k);
    LowNameIsLower(seal, k');
    if TargetOf(seal, k) == TargetOf(seal, k') { UpperInjective(LowName(seal, k), LowName(seal, k')); }
    if seal.TransitSeal? { TransitPair(k, k'); } else { PlainInjective(seal, k, k'); }
  }

  lemma TransitPair(k: string, k': string)
    requires k != k' && TargetOf(TransitSeal, k).Var? && TargetOf(TransitSeal, k').Var?
    ensures LowName(TransitSeal, k) != LowName(TransitSeal, k') && !AliasPair(TransitSeal, k, k')
  {
    hide Upper, Transit, LowName;
    TransitInjective(k, k');
  }

  /** The variables that Render itself sets. */
  predicate Reserved(name: string) {
    name == SEAL_TYPE || name == "VAULT_API_ADDR" || name == "VAULT_CLUSTER_ADDR" || name == "VAULT_UI"
    || name == "VAULT_LOG_LEVEL"
  }

  lemma ReservedShape(name: string)
    requires Reserved(name)
    ensures |name| == 15 || |name| == 14 || |name| == 18 || |name| == 8
    ensures name[0] == 'V' && (name[6] == 'S' || name[6] == 'A' || name[6] == 'C' || name[6] == 'U' || name[6] == 'L')
    ensures name[6] == 'A' ==> name[7] == 'P'
    ensures |name| == 15 ==> name[6] == 'S' || name[6] == 'L'
  {
  }

  /** No attribute, whatever its key, sets one of them. */
  lemma NeverReserved(seal: Seal, key: string)
    requires TargetOf(seal, key).Var?
    ensures !Reserved(TargetOf(seal, key).name)
  {
    hide Reserved, LowName, TargetOf, Upper;
    var low := LowName(seal, key);
    NameIsUpper(seal, key);
    LowShape(seal, key);
    if Reserved(Upper(low)) { ReservedLow(low); }
  }

  lemma ReservedLow(low: string)
    requires Reserved(Upper(low))
    ensures |low| == 15 || |low| == 14 || |low| == 18 || |low| == 8
    ensures low[0] != 'a' && low[0] != 'g' && low[6] != 'h' && low[6] != 'o' && low[6] != 'g'
    ensures low[6] == 'a' ==> low[7] == 'p' || low[7] == 'P'
    ensures |low| == 15 ==> low[6] != 'n'
  {
    hide Reserved;
    ReservedShape(Upper(low));
    assert |Upper(low)| == |low| && Upper(low)[0] == UpperChar(low[0]);
    assert Upper(low)[6] == UpperChar(low[6]) && Upper(low)[7] == UpperChar(low[7]);
  }

  lemma LowShape(seal: Seal, key: string)
    requires TargetOf(seal, key).Var?
    ensures var low := LowName(seal, key);
            |low| <= 7 || low[0] == 'a' || low[0] == 'g' || low[6] == 'h' || low[6] == 'o' || low[6] == 'g'
            || (low[6] == 'a' && low[7] != 'p' && low[7] != 'P')
            || (seal.TransitSeal?
                && (|low| == 10 || |low| == 11 || |low| == 13 || |low| == 16 || |low| == 17 || |low| > 18
                                      || (|low| == 15 && low[6] == 'n')))
    ensures |LowName(seal, key)| > 0
  {
    hide Upper, TargetOf, LowName;
    if seal.TransitSeal? { TransitShape(key); } else { PlainShape(seal, key); }
  }

  lemma TransitShape(key: string)
    requires TargetOf(TransitSeal, key).Var?
    ensures var low := LowName(TransitSeal, key);
            |low| == 10 || |low| == 11 || |low| == 13 || |low| == 16 || |low| == 17 || |low| > 18
            || (|low| == 15 && low[6] == 'n')
  {
    hide Upper;
    TransitLength(key);
  }

  lemma PlainShape(seal: Seal, key: string)
    requires !seal.TransitSeal?
    ensures var low := LowName(seal, key);
            && |low| > 0
            && (|low| <= 7 || low[0] == 'a' || low[0] == 'g' || low[6] == 'h' || low[6] == 'o' || low[6] == 'g'
                || (low[6] == 'a' && low[7] != 'p' && low[7] != 'P'))
  {
    hide Upper, Renamed;
  }

  // ---------------------------------------------------------------------------------------------
  // The variables of each seal type by name

  /** Which seal types there are, and whose variables they set. */
  lemma SealTypes(sealType: string)
    ensures SealOf(sealType) == Some(AliCloud) <==> sealType == "alicloudkms"
    ensures SealOf(sealType) == Some(AWS) <==> sealType == "awskms"
    ensures SealOf(sealType) == Some(Azure) <==> sealType == "azurekeyvault"
    ensures SealOf(sealType) == Some(GCP) <==> sealType == "gcpckms"
    ensures SealOf(sealType) == Some(OCI) <==> sealType == "ocikms"
    ensures SealOf(sealType) == Some(HSM) <==> sealType == "pkcs11"
    ensures SealOf(sealType) == Some(TransitSeal) <==> sealType == "transit"
  {
  }

  lemma AliCloudVariables(key: string)
    ensures TargetOf(AliCloud, "kms_key_id") == Var("VAULT_ALICLOUDKMS_SEAL_KEY_ID")
    ensures key !in {"kms_key_id", "name", "priority"} ==> TargetOf(AliCloud, key) == Var("ALICLOUD_" + Upper(key))
  {
    hide Upper;
  }

  lemma AWSKeyVariables()
    ensures TargetOf(AWS, "kms_key_id") == Var("VAULT_AWSKMS_SEAL_KEY_ID")
    ensures TargetOf(AWS, "secret_key") == Var("AWS_SECRET_ACCESS_KEY")
  {
    hide Upper;
  }

  lemma AWSVariables(key: string)
    ensures key !in {"kms_key_id", "secret_key", "name", "priority"} ==> TargetOf(AWS, key) == Var("AWS_" + Upper(key))
  {
    hide Upper;
  }

  lemma AzureVariables(key: string)
    ensures TargetOf(Azure, "vault_name") == Var("VAULT_AZUREKEYVAULT_VAULT_NAME")
    ensures TargetOf(Azure, "key_name") == Var("VAULT_AZUREKEYVAULT_KEY_NAME")
    ensures TargetOf(Azure, "resource") == Var("AZURE_AD_RESOURCE")
    ensures key !in {"vault_name", "key_name", "resource", "name", "priority"} ==>
            TargetOf(Azure, key) == Var("AZURE_" + Upper(key))
  {
  }

  lemma GCPVariables(key: string)
    ensures TargetOf(GCP, "key_ring") == Var("VAULT_GCPCKMS_SEAL_KEY_RING")
    ensures TargetOf(GCP, "crypto_ring") == Var("VAULT_GCPCKMS_SEAL_CRYPTO_RING")
    ensures TargetOf(GCP, "crypto_key") == Var("VAULT_GCPCKMS_SEAL_CRYPTO_KEY")
    ensures key !in {"key_ring", "crypto_ring", "crypto_key", "name", "priority"} ==>
            TargetOf(GCP, key) == Var("GOOGLE_" + Upper(key))
  {
  }

  lemma OCIVariables(key: string)
    ensures TargetOf(OCI, "key_id") == Var("VAULT_OCIKMS_SEAL_KEY_ID")
    ensures key !in {"key_id", "name", "priority"} ==> TargetOf(OCI, key) == Var("VAULT_OCIKMS_" + Upper(key))
  {
    hide Upper;
  }

  lemma HSMLabelVariable()
    ensures TargetOf(HSM, "default_hmac_key_label") == Var("VAULT_HSM_HMAC_DEFAULT_KEY_LABEL")
  {
    hide Upper;
  }

  lemma HSMVariables(key: string)
    ensures key !in {"default_hmac_key_label", "name", "priority"} ==>
            TargetOf(HSM, key) == Var("VAULT_HSM_" + Upper(key))
  {
    hide Upper;
  }

  lemma TransitAccessVariables()
    ensures TargetOf(TransitSeal, "address") == Var("VAULT_ADDR")
    ensures TargetOf(TransitSeal, "token") == Var("VAULT_TOKEN")
    ensures TargetOf(TransitSeal, "namespace") == Var("VAULT_NAMESPACE")
  {
  }

  lemma TransitSealVariables()
    ensures TargetOf(TransitSeal, "key_name") == Var("VAULT_TRANSIT_SEAL_KEY_NAME")
    ensures TargetOf(TransitSeal, "mount_path") == Var("VAULT_TRANSIT_SEAL_MOUNT_PATH")
    ensures TargetOf(TransitSeal, "disable_renewal") == Var("VAULT_TRANSIT_SEAL_DISABLE_RENEWAL")
  {
  }

  lemma TransitTLSVariables()
    ensures TargetOf(TransitSeal, "tls_ca_cert") == Var("VAULT_CA_CERT")
    ensures TargetOf(TransitSeal, "tls_client_cert") == Var("VAULT_CLIENT_CERT")
    ensures TargetOf(TransitSeal, "tls_client_key") == Var("VAULT_CLIENT_KEY")
    ensures TargetOf(TransitSeal, "tls_skip_verify") == Var("VAULT_SKIP_VERIFY")
    ensures TargetOf(TransitSeal, "tls_server_name") == Var("VAULT_TLS_SERVER_NAME")
  {
    hide Upper, TrimTLS, Transit;
    TLSTarget("tls_ca_cert");
    TLSTarget("tls_client_cert");
    TLSTarget("tls_client_key");
    TLSTarget("tls_skip_verify");
    CACert();
    ClientCert();
    ClientKey();
    SkipVerify();
    ServerName();
  }

  lemma TLSTarget(key: string)
    requires key == "tls_ca_cert" || key == "tls_client_cert" || key == "tls_client_key" || key == "tls_skip_verify"
    ensures Transit(key) == Var("VAULT_" + Upper(TrimTLS(key)))
  {
    hide Upper, TrimTLS;
  }

  lemma CACert()
    ensures "VAULT_" + Upper(TrimTLS("tls_ca_cert")) == "VAULT_CA_CERT"
  {
    assert TrimTLS("tls_ca_cert") == "ca_cert";
    assert Upper("ca_cert") == "CA_CERT";
  }

  lemma ClientCert()
    ensures "VAULT_" + Upper(TrimTLS("tls_client_cert")) == "VAULT_CLIENT_CERT"
  {
    assert TrimTLS("tls_client_cert") == "client_cert";
    assert Upper("client_cert") == "CLIENT_CERT";
  }

  lemma ClientKey()
    ensures "VAULT_" + Upper(TrimTLS("tls_client_key")) == "VAULT_CLIENT_KEY"
  {
    assert TrimTLS("tls_client_key") == "client_key";
    assert Upper("client_key") == "CLIENT_KEY";
  }

  lemma SkipVerify()
    ensures "VAULT_" + Upper(TrimTLS("tls_skip_verify")) == "VAULT_SKIP_VERIFY"
  {
    assert TrimTLS("tls_skip_verify") == "skip_verify";
    assert Upper("skip_verify") == "SKIP_VERIFY";
  }

  lemma ServerName()
    ensures Transit("tls_server_name") == Var("VAULT_TLS_SERVER_NAME")
  {
    hide Upper;
  }

  lemma TransitRefuses(key: string)
    ensures TargetOf(TransitSeal, key).Unsupported? <==>
      key !in {"address", "token", "namespace", "key_name", "mount_path", "disable_renewal", "tls_ca_cert",
               "tls_client_cert", "tls_client_key", "tls_skip_verify", "tls_server_name", "key_id_prefix", "name",
               "priority"}
  {
  }

  // ---------------------------------------------------------------------------------------------
  // The translation

  /** sealAttrToString: strings and integers only. */
  function AttrString(v: Native): Option<string> {
    match v
    case GoString(s) => Some(s)
    case GoInt(n) => Some(Decimal(n))
    case GoBool(_) => None
    case GoStrings(_) => None
    case GoStringMap(_) => None
    case GoObject(_) => None
    case GoRaw(_) => None
  }

  /** Nothing but a string and an integer becomes one, an integer in decimal. */
  lemma AttrStringIs(v: Native)
    ensures AttrString(v).Some? <==> v.GoString? || v.GoInt?
    ensures v.GoString? ==> AttrString(v) == Some(v.s)
    ensures v.GoInt? ==>
              var n, t := v.n, AttrString(v).value;
              && t != "" && (t[0] == '-' <==> n < 0)
              && var digits := if n < 0 then t[1..] else t;
                 && (forall i :: 0 <= i < |digits| ==> '0' <= digits[i] <= '9')
                 && NumberOf(digits) == (if n < 0 then -n else n) && (|digits| > 1 ==> digits[0] != '0')
  {
    if v.GoInt? {
      DigitsSpell(if v.n < 0 then -v.n else v.n);
      assert v.n < 0 ==> AttrString(v).value[1..] == Digits(-v.n);
    }
  }

  predicate Translatable(seal: Seal, key: string, v: Native) {
    AttrString(v).Some? && !TargetOf(seal, key).Unsupported?
  }

  /** `out` comes from the attributes with the keys `done`. */
  ghost predicate ComesFrom(sealType: string, seal: Seal, attrs: map<string, Native>, done: set<string>,
                            out: map<string, string>)
  {
    && SEAL_TYPE in out && out[SEAL_TYPE] == sealType
    && (forall k :: k in done && k in attrs && TargetOf(seal, k).Var? ==> TargetOf(seal, k).name in out)
    && (forall n :: n in out && n != SEAL_TYPE ==>
          exists k :: k in done && k in attrs && TargetOf(seal, k) == Var(n) && AttrString(attrs[k]) == Some(out[n]))
  }

  /** The translation of the attributes in a given order. */
  function Visit(sealType: string, seal: Seal, attrs: map<string, Native>, order: seq<string>)
    : Option<map<string, string>>
    requires forall k :: k in order ==> k in attrs
  {
    if order == [] then Some(map[SEAL_TYPE := sealType]) else
    var k := order[|order| - 1];
    match Visit(sealType, seal, attrs, order[..|order| - 1])
    case None => None
    case Some(out) =>
      var v, t := AttrString(attrs[k]), TargetOf(seal, k);
      if v.None? || t.Unsupported? then None else Some(if t.Var? then out[t.name := v.value] else out)
  }

  lemma VisitNext(sealType: string, seal: Seal, attrs: map<string, Native>, order: seq<string>, k: string)
    requires forall j :: j in order + [k] ==> j in attrs
    ensures Visit(sealType, seal, attrs, order + [k]) ==
            match Visit(sealType, seal, attrs, order)
            case None => None
            case Some(out) =>
              var v, t := AttrString(attrs[k]), TargetOf(seal, k);
              if !Translatable(seal, k, attrs[k]) then None
              else Some(if t.Var? then out[t.name := v.value] else out)
  {
    hide TargetOf, AttrString;
    assert (order + [k])[..|order|] == order;
  }

  /** It fails in every order or in none. */
  lemma {:induction false} VisitSome(sealType: string, seal: Seal, attrs: map<string, Native>, order: seq<string>)
    requires forall k :: k in order ==> k in attrs
    ensures Visit(sealType, seal, attrs, order).Some? <==> forall k :: k in order ==> Translatable(seal, k, attrs[k])
  {
    hide TargetOf, AttrString, Translatable, Visit;
    if order == [] {
      VisitNone(sealType, seal, attrs);
    } else {
      var rest, k := order[..|order| - 1], order[|order| - 1];
      assert order == rest + [k];
      VisitSome(sealType, seal, attrs, rest);
      VisitNext(sealType, seal, attrs, rest, k);
    }
  }

  lemma VisitNone(sealType: string, seal: Seal, attrs: map<string, Native>)
    ensures Visit(sealType, seal, attrs, []) == Some(map[SEAL_TYPE := sealType])
  {
  }

  lemma {:induction false} VisitComes(sealType: string, seal: Seal, attrs: map<string, Native>, order: seq<string>,
                                      done: set<string>, out: map<string, string>)
    requires Permutes(order, done) && done <= attrs.Keys
    requires Visit(sealType, seal, attrs, order) == Some(out)
    ensures ComesFrom(sealType, seal, attrs, done, out)
  {
    hide TargetOf, AttrString, Visit, Translatable, Permutes;
    if order == [] {
      VisitNone(sealType, seal, attrs);
      assert done == {} by { NoKeys(order, done); }
    } else {
      hide ComesFrom;
      var rest, k := order[..|order| - 1], order[|order| - 1];
      PermutesButLast(order, done);
      assert done == done - {k} + {k};
      assert order == rest + [k];
      assert forall j :: j in order ==> j in attrs by { NoKeys(order, done); }
      VisitNext(sealType, seal, attrs, rest, k);
      var before := Visit(sealType, seal, attrs, rest).value;
      VisitComes(sealType, seal, attrs, rest, done - {k}, before);
      AddsOne(sealType, seal, attrs, done - {k}, k, before);
    }
  }

  lemma NoKeys(order: seq<string>, keys: set<string>)
    requires Permutes(order, keys)
    ensures order == [] ==> keys == {}
    ensures forall k :: k in order ==> k in keys
  {
    assert forall k :: k in keys ==> k in order;
  }

  /**
   ToEnvVars with the translator of the seal, which visits the attributes in an arbitrary order. It
   fails exactly when the seal is unknown, there is nothing to translate or an attribute cannot be.
   */
  method ToEnvVars(sealType: string, attrs: map<string, Native>) returns (r: Option<map<string, string>>)
    ensures r.Some? <==> SealOf(sealType).Some? && |attrs| > 0
                         && forall k :: k in attrs ==> Translatable(SealOf(sealType).value, k, attrs[k])
    ensures r.Some? ==> ComesFrom(sealType, SealOf(sealType).value, attrs, attrs.Keys, r.value)
    ensures r.Some? ==> exists order :: Permutes(order, attrs.Keys) &&
                          r == Visit(sealType, SealOf(sealType).value, attrs, order)
  {
    hide TargetOf, AttrString, SealOf, Visit, Permutes, ComesFrom;
    if sealType == "" {
      assert SealOf(sealType).None? by { NoSeal(); }
      return None;
    }
    if |attrs| < 1 || SealOf(sealType).None? { return None; }
    var seal := SealOf(sealType).value;
    var out := map[SEAL_TYPE := sealType];
    var todo := attrs.Keys;
    ghost var order := [];
    VisitNone(sealType, seal, attrs);
    PermutesNext([], attrs.Keys - todo, "");
    while todo != {}
      invariant todo <= attrs.Keys && Permutes(order, attrs.Keys - todo) && forall k :: k in order ==> k in attrs
      invariant Visit(sealType, seal, attrs, order) == Some(out)
      invariant forall k :: k in attrs.Keys - todo ==> Translatable(seal, k, attrs[k])
    {
      var k :| k in todo;
      var v, t := AttrString(attrs[k]), TargetOf(seal, k);
      if v.None? || t.Unsupported? {
        assert !Translatable(seal, k, attrs[k]);
        return None;
      }
      VisitNext(sealType, seal, attrs, order, k);
      PermutesNext(order, attrs.Keys - todo, k);
      assert attrs.Keys - (todo - {k}) == attrs.Keys - todo + {k};
      order, todo := order + [k], todo - {k};
      if t.Var? { out := out[t.name := v.value]; }
    }
    assert attrs.Keys - todo == attrs.Keys;
    VisitComes(sealType, seal, attrs, order, attrs.Keys, out);
    return Some(out);
  }

  lemma NoSeal()
    ensures SealOf("").None?
  {
  }

  lemma AddsOne(sealType: string, seal: Seal, attrs: map<string, Native>, done: set<string>, k: string,
                out: map<string, string>)
    requires ComesFrom(sealType, seal, attrs, done, out) && k in attrs && Translatable(seal, k, attrs[k])
    ensures var t := TargetOf(seal, k);
            ComesFrom(sealType, seal, attrs, done + {k},
                      if t.Var? then out[t.name := AttrString(attrs[k]).value] else out)
  {
    hide TargetOf, AttrString, Reserved;
    var t := TargetOf(seal, k);
    if t.Var? { NotSealType(seal, k); }
    var out' := if t.Var? then out[t.name := AttrString(attrs[k]).value] else out;
    forall n | n in out' && n != SEAL_TYPE
      ensures exists j :: j in done + {k} && j in attrs && TargetOf(seal, j) == Var(n) &&
                          AttrString(attrs[j]) == Some(out'[n])
    {
      if t.Var? && n == t.name {
        assert k in done + {k} && TargetOf(seal, k) == Var(n);
      } else {
        var j :| j in done && j in attrs && TargetOf(seal, j) == Var(n) && AttrString(attrs[j]) == Some(out[n]);
        assert j in done + {k};
      }
    }
  }

  lemma NotSealType(seal: Seal, key: string)
    requires TargetOf(seal, key).Var?
    ensures TargetOf(seal, key).name != SEAL_TYPE
  {
    hide TargetOf;
    NeverReserved(seal, key);
  }

  /** Attributes that set the same variable have the same value. */
  ghost predicate SharedAgree(seal: Seal, attrs: map<string, Native>) {
    forall k, k' :: k in attrs && k' in attrs && TargetOf(seal, k).Var? && TargetOf(seal, k) == TargetOf(seal, k') ==>
      AttrString(attrs[k]) == AttrString(attrs[k'])
  }

  /** An attribute and its alias, where both are given, have the same value. */
  ghost predicate AliasesAgree(seal: Seal, attrs: map<string, Native>) {
    forall k, k' :: k in attrs && k' in attrs && AliasPair(seal, k, k') ==>
      AttrString(attrs[k]) == AttrString(attrs[k'])
  }

  ghost predicate LowerKeys(attrs: map<string, Native>) {
    forall k :: k in attrs ==> LowerCase(k)
  }

  ghost predicate AllTranslatable(seal: Seal, attrs: map<string, Native>) {
    forall k :: k in attrs ==> Translatable(seal, k, attrs[k])
  }

  /** Every order of iteration yields the same variables. */
  ghost predicate OrderIrrelevant(sealType: string, seal: Seal, attrs: map<string, Native>) {
    forall order, order' :: Permutes(order, attrs.Keys) && Permutes(order', attrs.Keys) ==>
      Visit(sealType, seal, attrs, order) == Visit(sealType, seal, attrs, order')
  }

  lemma AliasesAreVariables(seal: Seal, k: string, k': string)
    requires AliasPair(seal, k, k')
    ensures k != k' && TargetOf(seal, k).Var? && TargetOf(seal, k').Var?
  {
    hide Upper;
  }

  /** With lower-case keys only aliases share a variable. */
  lemma SharedAgreeIff(seal: Seal, attrs: map<string, Native>)
    requires LowerKeys(attrs)
    ensures SharedAgree(seal, attrs) <==> AliasesAgree(seal, attrs)
  {
    hide TargetOf, AttrString, LowerCase, AliasPair;
    forall k, k' | k in attrs && k' in attrs && k != k'
      ensures AliasPair(seal, k, k') <==> TargetOf(seal, k).Var? && TargetOf(seal, k) == TargetOf(seal, k')
    {
      if AliasPair(seal, k, k') { AliasesAreVariables(seal, k, k'); }
      if TargetOf(seal, k).Var? && TargetOf(seal, k').Var? { SharesVariableIff(seal, k, k'); }
    }
  }

  /** Then every attribute that has a variable can be read back from it. */
  lemma ReadsBack(sealType: string, seal: Seal, attrs: map<string, Native>, out: map<string, string>)
    requires SharedAgree(seal, attrs) && AllTranslatable(seal, attrs)
    requires ComesFrom(sealType, seal, attrs, attrs.Keys, out)
    ensures forall k :: k in attrs && TargetOf(seal, k).Var? ==>
                        TargetOf(seal, k).name in out && Some(out[TargetOf(seal, k).name]) == AttrString(attrs[k])
  {
    hide TargetOf, AttrString, LowerCase, AliasPair;
    forall k | k in attrs && TargetOf(seal, k).Var?
      ensures TargetOf(seal, k).name in out && Some(out[TargetOf(seal, k).name]) == AttrString(attrs[k])
    {
      NotSealType(seal, k);
      var n := TargetOf(seal, k).name;
      var j :| j in attrs && TargetOf(seal, j) == Var(n) && AttrString(attrs[j]) == Some(out[n]);
    }
  }

  lemma SameNames(sealType: string, seal: Seal, attrs: map<string, Native>, out: map<string, string>,
                  out': map<string, string>)
    requires ComesFrom(sealType, seal, attrs, attrs.Keys, out) && ComesFrom(sealType, seal, attrs, attrs.Keys, out')
    ensures forall n :: n in out ==> n in out'
  {
  }

  /** The attribute that is visited last sets its variable, whatever the others have set. */
  lemma LastWins(sealType: string, seal: Seal, attrs: map<string, Native>, k: string) returns (order: seq<string>)
    requires AllTranslatable(seal, attrs) && k in attrs && TargetOf(seal, k).Var?
    ensures Permutes(order, attrs.Keys)
    ensures var r := Visit(sealType, seal, attrs, order);
            r.Some? && TargetOf(seal, k).name in r.value
            && Some(r.value[TargetOf(seal, k).name]) == AttrString(attrs[k])
  {
    hide TargetOf, AttrString, Visit;
    order := EndsIn(attrs.Keys, k);
    var rest := order[..|order| - 1];
    assert order == rest + [k];
    VisitNext(sealType, seal, attrs, rest, k);
    VisitSome(sealType, seal, attrs, order);
  }

  /** If two attributes disagree on a variable, either value may win. */
  lemma EitherMayWin(sealType: string, seal: Seal, attrs: map<string, Native>, k: string, k': string)
    requires AllTranslatable(seal, attrs) && k in attrs && k' in attrs
    requires TargetOf(seal, k).Var? && TargetOf(seal, k) == TargetOf(seal, k')
             && AttrString(attrs[k]) != AttrString(attrs[k'])
    ensures !OrderIrrelevant(sealType, seal, attrs)
  {
    hide TargetOf, AttrString, Visit, Permutes, AllTranslatable;
    var order := LastWins(sealType, seal, attrs, k);
    var order' := LastWins(sealType, seal, attrs, k');
  }

  /**
   For attributes that can be translated, the order of iteration matters exactly when two of them
   that share a variable have different values; with lower-case keys, exactly when an attribute and
   its alias have.
   */
  lemma OrderIrrelevantIff(sealType: string, seal: Seal, attrs: map<string, Native>)
    ensures OrderIrrelevant(sealType, seal, attrs) <==> AllTranslatable(seal, attrs) ==> SharedAgree(seal, attrs)
    ensures LowerKeys(attrs) ==>
            (OrderIrrelevant(sealType, seal, attrs) <==> AllTranslatable(seal, attrs) ==> AliasesAgree(seal, attrs))
  {
    hide TargetOf, AttrString, LowerKeys, AliasesAgree, Translatable, ComesFrom, Visit;
    if !AllTranslatable(seal, attrs) || SharedAgree(seal, attrs) {
      forall order, order' | Permutes(order, attrs.Keys) && Permutes(order', attrs.Keys)
        ensures Visit(sealType, seal, attrs, order) == Visit(sealType, seal, attrs, order')
      {
        SameVisit(sealType, seal, attrs, order, order');
      }
    } else {
      var k, k' :| k in attrs && k' in attrs && TargetOf(seal, k).Var? && TargetOf(seal, k) == TargetOf(seal, k')
                   && AttrString(attrs[k]) != AttrString(attrs[k']);
      EitherMayWin(sealType, seal, attrs, k, k');
    }
    if LowerKeys(attrs) { SharedAgreeIff(seal, attrs); }
  }

  lemma SameVisit(sealType: string, seal: Seal, attrs: map<string, Native>, order: seq<string>, order': seq<string>)
    requires Permutes(order, attrs.Keys) && Permutes(order', attrs.Keys)
    requires !AllTranslatable(seal, attrs) || SharedAgree(seal, attrs)
    ensures Visit(sealType, seal, attrs, order) == Visit(sealType, seal, attrs, order')
  {
    hide TargetOf, AttrString, ComesFrom, Visit, SharedAgree, Translatable;
    VisitSome(sealType, seal, attrs, order);
    VisitSome(sealType, seal, attrs, order');
    if AllTranslatable(seal, attrs) {
      var out, out' := Visit(sealType, seal, attrs, order).value, Visit(sealType, seal, attrs, order').value;
      VisitComes(sealType, seal, attrs, order, attrs.Keys, out);
      VisitComes(sealType, seal, attrs, order', attrs.Keys, out');
      SameVariables(sealType, seal, attrs, out, out');
    }
  }

  lemma SameVariables(sealType: string, seal: Seal, attrs: map<string, Native>, out: map<string, string>,
                      out': map<string, string>)
    requires SharedAgree(seal, attrs) && AllTranslatable(seal, attrs)
    requires ComesFrom(sealType, seal, attrs, attrs.Keys, out) && ComesFrom(sealType, seal, attrs, attrs.Keys, out')
    ensures out == out'
  {
    hide TargetOf, AttrString, SharedAgree, AllTranslatable;
    ReadsBack(sealType, seal, attrs, out);
    ReadsBack(sealType, seal, attrs, out');
    SameNames(sealType, seal, attrs, out, out');
    SameNames(sealType, seal, attrs, out', out);
    forall n | n in out ensures n in out' && out'[n] == out[n] {
      if n != SEAL_TYPE {
        var k :| k in attrs && TargetOf(seal, k) == Var(n) && AttrString(attrs[k]) == Some(out[n]);
      }
    }
  }

  /** What the translation loses: the labels of a seal and transit's key_id_prefix. */
  lemma DroppedIff(seal: Seal, key: string)
    ensures TargetOf(seal, key).Dropped? <==> IsLabel(key) || (seal.TransitSeal? && key == "key_id_prefix")
  {
  }

  lemma TwoKeysTranslate(v: string, v': string)
    ensures var attrs := map["secret_key" := GoString(v), "secret_access_key" := GoString(v')];
            LowerKeys(attrs) && AllTranslatable(AWS, attrs)
  {
    UpSecretAccessKey();
    hide Upper;
    var attrs := map["secret_key" := GoString(v), "secret_access_key" := GoString(v')];
    assert LowerCase("secret_key");
    forall k | k in attrs ensures Translatable(AWS, k, attrs[k]) {
      assert k == "secret_key" || k == "secret_access_key";
    }
  }

  /** For instance: both spellings of the AWS secret key, with two values. */
  lemma AliasLosesAValue(v: string, v': string)
    requires v != v'
    ensures !OrderIrrelevant("awskms", AWS, map["secret_key" := GoString(v), "secret_access_key" := GoString(v')])
  {
    var attrs := map["secret_key" := GoString(v), "secret_access_key" := GoString(v')];
    TwoKeysTranslate(v, v');
    hide LowerKeys, AllTranslatable, OrderIrrelevant, SharedAgree;
    OrderIrrelevantIff("awskms", AWS, attrs);
    assert "secret_key" in attrs && "secret_access_key" in attrs && AliasPair(AWS, "secret_key", "secret_access_key");
    assert AttrString(attrs["secret_key"]) == Some(v) && AttrString(attrs["secret_access_key"]) == Some(v');
  }
}
