/** The account record and its dictionary form: to_dict writes the common
    keys and then the keys of the account's provider; from_dict reads the
    keys of the provider named in the dictionary into a fresh record. */
module Account {
  import opened Strings
  import opened Values

  /** The dictionary keys to_dict writes and from_dict reads. */
  datatype Key =
    | Id | Provider | Email | CreatedAt | Comment | Country | IsActive | LastCheck | CheckResult
    | Password | MfaSecret | AccessKey | SecretKey | Region | QuotaUsed | QuotaLimit
    | EmailPassword | DoPassword | DoTwoFaSecret | Limits
    | LinodeLogin | LinodePassword | LinodeTwoFaSecret | ApiKey | PaymentMethod
    | AzurePassword | AzureTwoFaSecret | Subscription
    | TwoFaSecret

  /** The text of each key. */
  function KeyName(k: Key): string
  {
    match k
    case Id => "id"
    case Provider => "provider"
    case Email => "email"
    case CreatedAt => "created_at"
    case Comment => "comment"
    case Country => "country"
    case IsActive => "is_active"
    case LastCheck => "last_check"
    case CheckResult => "check_result"
    case Password => "password"
    case MfaSecret => "mfa_secret"
    case AccessKey => "access_key"
    case SecretKey => "secret_key"
    case Region => "region"
    case QuotaUsed => "quota_used"
    case QuotaLimit => "quota_limit"
    case EmailPassword => "email_password"
    case DoPassword => "do_password"
    case DoTwoFaSecret => "do_2fa_secret"
    case Limits => "limits"
    case LinodeLogin => "linode_login"
    case LinodePassword => "linode_password"
    case LinodeTwoFaSecret => "linode_2fa_secret"
    case ApiKey => "api_key"
    case PaymentMethod => "payment_method"
    case AzurePassword => "azure_password"
    case AzureTwoFaSecret => "azure_2fa_secret"
    case Subscription => "subscription"
    case TwoFaSecret => "2fa_secret"
  }

  /** The key a text names, if any. */
  function KeyOf(name: string): Option<Key>
  {
    match name
    case "id" => Some(Id)
    case "provider" => Some(Provider)
    case "email" => Some(Email)
    case "created_at" => Some(CreatedAt)
    case "comment" => Some(Comment)
    case "country" => Some(Country)
    case "is_active" => Some(IsActive)
    case "last_check" => Some(LastCheck)
    case "check_result" => Some(CheckResult)
    case "password" => Some(Password)
    case "mfa_secret" => Some(MfaSecret)
    case "access_key" => Some(AccessKey)
    case "secret_key" => Some(SecretKey)
    case "region" => Some(Region)
    case "quota_used" => Some(QuotaUsed)
    case "quota_limit" => Some(QuotaLimit)
    case "email_password" => Some(EmailPassword)
    case "do_password" => Some(DoPassword)
    case "do_2fa_secret" => Some(DoTwoFaSecret)
    case "limits" => Some(Limits)
    case "linode_login" => Some(LinodeLogin)
    case "linode_password" => Some(LinodePassword)
    case "linode_2fa_secret" => Some(LinodeTwoFaSecret)
    case "api_key" => Some(ApiKey)
    case "payment_method" => Some(PaymentMethod)
    case "azure_password" => Some(AzurePassword)
    case "azure_2fa_secret" => Some(AzureTwoFaSecret)
    case "subscription" => Some(Subscription)
    case "2fa_secret" => Some(TwoFaSecret)
    case _ => None
  }

  /** Every key's text reads back as that key, so no two keys share a
      text and a dictionary over Key loses nothing of the text-keyed one. */
  lemma KeyNameRoundTrip(k: Key)
    ensures KeyOf(KeyName(k)) == Some(k)
  {
    match k
    case Id =>
    case Provider =>
    case Email =>
    case CreatedAt =>
    case Comment =>
    case Country =>
    case IsActive =>
    case LastCheck =>
    case CheckResult =>
    case Password =>
    case MfaSecret =>
    case AccessKey =>
    case SecretKey =>
    case Region =>
    case QuotaUsed =>
    case QuotaLimit =>
    case EmailPassword =>
    case DoPassword =>
    case DoTwoFaSecret =>
    case Limits =>
    case LinodeLogin =>
    case LinodePassword =>
    case LinodeTwoFaSecret =>
    case ApiKey =>
    case PaymentMethod =>
    case AzurePassword =>
    case AzureTwoFaSecret =>
    case Subscription =>
    case TwoFaSecret =>
  }

  lemma KeyNameInjective(k1: Key, k2: Key)
    ensures KeyName(k1) == KeyName(k2) ==> k1 == k2
  {
    KeyNameRoundTrip(k1);
    KeyNameRoundTrip(k2);
  }

  type Dict = map<Key, Value>

  /** A timestamp, by its ISO text. */
  datatype Stamp = Stamp(iso: string)

  /** The attributes of an Account. A fresh record holds None in every
      attribute (the column defaults apply only when the row is stored). */
  datatype Account = Account(
    id: Value, provider: Value, email: Value, createdAt: Option<Stamp>, comment: Value,
    password: Value, mfaSecret: Value, accessKey: Value, secretKey: Value, region: Value,
    country: Value, quotaUsed: Value, quotaLimit: Value,
    emailPassword: Value, doPassword: Value, doTwoFaSecret: Value, limits: Value,
    linodeLogin: Value, linodePassword: Value, linodeTwoFaSecret: Value, apiKey: Value,
    paymentMethod: Value, linodeCountry: Value,
    azurePassword: Value, azureTwoFaSecret: Value, subscription: Value, azureCountry: Value,
    isActive: Value, lastCheck: Option<Stamp>, checkResult: Value)

  const Fresh: Account := Account(
    Null, Null, Null, None, Null,
    Null, Null, Null, Null, Null,
    Null, Null, Null,
    Null, Null, Null, Null,
    Null, Null, Null, Null,
    Null, Null,
    Null, Null, Null, Null,
    Null, None, Null)

  const AWS: Value := Str("AWS")
  const DigitalOcean: Value := Str("DigitalOcean")
  const Linode: Value := Str("Linode")
  const Azure: Value := Str("Azure")

  predicate KnownProvider(p: Value)
  {
    p == AWS || p == DigitalOcean || p == Linode || p == Azure
  }

  /** isoformat() when set, None otherwise. */
  function IsoOrNone(t: Option<Stamp>): (v: Value)
    ensures t.Some? <==> v.Str?
    ensures t.Some? ==> v == Str(t.value.iso)
  {
    if t.Some? then Str(t.value.iso) else Null
  }

  const CommonKeys: set<Key> :=
    {Id, Provider, Email, CreatedAt, Comment, Country, IsActive, LastCheck, CheckResult}

  /** The keys common to every provider. */
  function CommonDict(a: Account): (d: Dict)
    ensures d.Keys == CommonKeys
  {
    map[Id := a.id, Provider := a.provider, Email := a.email,
        CreatedAt := IsoOrNone(a.createdAt), Comment := a.comment, Country := a.country,
        IsActive := a.isActive, LastCheck := IsoOrNone(a.lastCheck), CheckResult := a.checkResult]
  }

  /** The keys of the account's own provider, none for any other. */
  function ProviderDict(a: Account): (d: Dict)
    ensures !KnownProvider(a.provider) ==> d == map[]
  {
    if a.provider == AWS then
      map[Password := a.password, MfaSecret := a.mfaSecret, AccessKey := a.accessKey,
          SecretKey := a.secretKey, Region := a.region,
          QuotaUsed := a.quotaUsed, QuotaLimit := a.quotaLimit]
    else if a.provider == DigitalOcean then
      map[EmailPassword := a.emailPassword, DoPassword := a.doPassword,
          DoTwoFaSecret := a.doTwoFaSecret, Limits := a.limits, Country := a.country]
    else if a.provider == Linode then
      map[EmailPassword := a.emailPassword, LinodeLogin := a.linodeLogin,
          LinodePassword := a.linodePassword, LinodeTwoFaSecret := a.linodeTwoFaSecret,
          ApiKey := a.apiKey, PaymentMethod := a.paymentMethod, Country := a.linodeCountry]
    else if a.provider == Azure then
      map[AzurePassword := a.azurePassword, AzureTwoFaSecret := a.azureTwoFaSecret,
          Subscription := a.subscription, Country := a.azureCountry]
    else map[]
  }

  /** to_dict: the common keys, then the provider's keys over them. */
  function ToDict(a: Account): (d: Dict)
    ensures d.Keys == CommonDict(a).Keys + ProviderDict(a).Keys
  {
    CommonDict(a) + ProviderDict(a)
  }

  /** The provider's entries are written over the common ones, as
      data.update does: a key both parts hold, such as 'country', takes the
      provider's value. */
  lemma ToDictUpdate(a: Account)
    ensures forall k :: k in ProviderDict(a) ==> ToDict(a)[k] == ProviderDict(a)[k]
    ensures forall k :: k in CommonDict(a) && k !in ProviderDict(a) ==> ToDict(a)[k] == CommonDict(a)[k]
  {
  }

  /** A lookup in a merged dictionary: the right-hand entry wins. */
  lemma MergeAt<K, V>(m1: map<K, V>, m2: map<K, V>, k: K)
    ensures k in m2 ==> k in m1 + m2 && (m1 + m2)[k] == m2[k]
    ensures k !in m2 ==> (k in m1 + m2 <==> k in m1)
    ensures k !in m2 && k in m1 ==> (m1 + m2)[k] == m1[k]
  {
  }

  /** Every dictionary holds the common keys, with the timestamps as ISO
      text or None; an unknown provider adds nothing to them. */
  lemma ToDictKeys(a: Account)
    ensures CommonKeys <= ToDict(a).Keys
    ensures !KnownProvider(a.provider) ==> ToDict(a).Keys == CommonKeys
    ensures ToDict(a)[CreatedAt] == IsoOrNone(a.createdAt) && ToDict(a)[LastCheck] == IsoOrNone(a.lastCheck)
  {
    assert CreatedAt !in ProviderDict(a) && LastCheck !in ProviderDict(a);
    MergeAt(CommonDict(a), ProviderDict(a), CreatedAt);
    MergeAt(CommonDict(a), ProviderDict(a), LastCheck);
  }

  /** from_dict: provider, email and comment (each '' when absent), then
      the fields of the named provider; every other attribute stays None. */
  function FromDict(d: Dict): (a: Account)
    ensures a.provider == Get(d, Provider, Str("")) && a.email == Get(d, Email, Str(""))
    ensures a.comment == Get(d, Comment, Str(""))
    ensures !KnownProvider(a.provider) ==>
      a == Fresh.(provider := a.provider, email := a.email, comment := a.comment)
  {
    var e := Str("");
    var a := Fresh.(provider := Get(d, Provider, e), email := Get(d, Email, e), comment := Get(d, Comment, e));
    if a.provider == AWS then
      a.(password := Get(d, Password, e), mfaSecret := Get(d, MfaSecret, e),
         accessKey := Get(d, AccessKey, e), secretKey := Get(d, SecretKey, e),
         region := Get(d, Region, e), country := Get(d, Country, e))
    else if a.provider == DigitalOcean then
      a.(emailPassword := Get(d, EmailPassword, e), doPassword := Get(d, DoPassword, e),
         doTwoFaSecret := Get(d, TwoFaSecret, e), limits := Get(d, Limits, e),
         country := Get(d, Country, e), paymentMethod := Get(d, PaymentMethod, e))
    else if a.provider == Linode then
      a.(emailPassword := Get(d, EmailPassword, e), linodeLogin := Get(d, LinodeLogin, e),
         linodePassword := Get(d, LinodePassword, e), linodeTwoFaSecret := Get(d, TwoFaSecret, e),
         apiKey := Get(d, ApiKey, e), paymentMethod := Get(d, PaymentMethod, Str("Card")),
         linodeCountry := Get(d, Country, e))
    else if a.provider == Azure then
      a.(azurePassword := Get(d, AzurePassword, e), azureTwoFaSecret := Get(d, TwoFaSecret, e),
         subscription := Get(d, Subscription, Str("Pay as You Go")), azureCountry := Get(d, Country, e))
    else a
  }

  /** The country to_dict writes: the provider's own country attribute for
      Linode and Azure, the common one otherwise. */
  lemma CountryByProvider(a: Account)
    ensures ToDict(a)[Country] ==
      if a.provider == Linode then a.linodeCountry
      else if a.provider == Azure then a.azureCountry
      else a.country
  {
    MergeAt(CommonDict(a), ProviderDict(a), Country);
  }

  /** For each of the four providers the country read by from_dict comes
      back under 'country'; for any other provider it is not read. */
  lemma CountryRoundTrip(d: Dict)
    ensures var p := Get(d, Provider, Str(""));
      ToDict(FromDict(d))[Country] == if KnownProvider(p) then Get(d, Country, Str("")) else Null
  {
    CountryByProvider(FromDict(d));
  }

  /** For an AWS account to_dict writes the six fields from_dict reads
      under their own keys. */
  lemma AwsToDict(a: Account)
    requires a.provider == AWS
    ensures var r := ToDict(a);
      Password in r && r[Password] == a.password && MfaSecret in r && r[MfaSecret] == a.mfaSecret
      && AccessKey in r && r[AccessKey] == a.accessKey && SecretKey in r && r[SecretKey] == a.secretKey
      && Region in r && r[Region] == a.region && Country in r && r[Country] == a.country
  {
    var c, p := CommonDict(a), ProviderDict(a);
    assert p[Password] == a.password && p[MfaSecret] == a.mfaSecret && p[AccessKey] == a.accessKey;
    assert p[SecretKey] == a.secretKey && p[Region] == a.region && Country !in p;
    MergeAt(c, p, Password);
    MergeAt(c, p, MfaSecret);
    MergeAt(c, p, AccessKey);
    MergeAt(c, p, SecretKey);
    MergeAt(c, p, Region);
    MergeAt(c, p, Country);
  }

  /** The six AWS fields from_dict reads come back under the same keys. */
  lemma AwsRoundTrip(d: Dict)
    requires Get(d, Provider, Str("")) == AWS
    ensures var r := ToDict(FromDict(d));
      forall k :: k in {Password, MfaSecret, AccessKey, SecretKey, Region, Country} ==>
        k in r && r[k] == Get(d, k, Str(""))
  {
    var a := FromDict(d);
    var e := Str("");
    assert a.password == Get(d, Password, e) && a.mfaSecret == Get(d, MfaSecret, e);
    assert a.accessKey == Get(d, AccessKey, e) && a.secretKey == Get(d, SecretKey, e);
    assert a.region == Get(d, Region, e) && a.country == Get(d, Country, e);
    AwsToDict(a);
  }

  /** to_dict never writes the '2fa_secret' key. */
  lemma NoTwoFaSecretKey(a: Account)
    ensures TwoFaSecret !in ToDict(a)
  {
    assert TwoFaSecret !in CommonDict(a) && TwoFaSecret !in ProviderDict(a);
    MergeAt(CommonDict(a), ProviderDict(a), TwoFaSecret);
  }

  /** The single '2fa_secret' key is read for DigitalOcean, Linode and
      Azure, and written back under each provider's own key, never under
      '2fa_secret'. */
  lemma TwoFaSecretRenamed(d: Dict)
    ensures var p, r := Get(d, Provider, Str("")), ToDict(FromDict(d));
      TwoFaSecret !in r
      && (p == DigitalOcean ==> r[DoTwoFaSecret] == Get(d, TwoFaSecret, Str("")))
      && (p == Linode ==> r[LinodeTwoFaSecret] == Get(d, TwoFaSecret, Str("")))
      && (p == Azure ==> r[AzureTwoFaSecret] == Get(d, TwoFaSecret, Str("")))
  {
    var a := FromDict(d);
    NoTwoFaSecretKey(a);
    MergeAt(CommonDict(a), ProviderDict(a), DoTwoFaSecret);
    MergeAt(CommonDict(a), ProviderDict(a), LinodeTwoFaSecret);
    MergeAt(CommonDict(a), ProviderDict(a), AzureTwoFaSecret);
  }

  /** The defaults from_dict uses for a missing key: 'Card' for a Linode
      payment method, 'Pay as You Go' for an Azure subscription. */
  lemma FromDictDefaults(d: Dict)
    ensures Get(d, Provider, Str("")) == Linode && PaymentMethod !in d ==>
      FromDict(d).paymentMethod == Str("Card")
    ensures Get(d, Provider, Str("")) == Azure && Subscription !in d ==>
      FromDict(d).subscription == Str("Pay as You Go")
  {
  }

  /** A record of an unknown provider becomes only the nine common keys,
      with email and comment as read and every other value None. */
  lemma UnknownProviderRoundTrip(d: Dict)
    requires !KnownProvider(Get(d, Provider, Str("")))
    ensures var r := ToDict(FromDict(d));
      r.Keys == CommonKeys && r[Email] == Get(d, Email, Str("")) && r[Comment] == Get(d, Comment, Str(""))
      && r[Id] == Null && r[Country] == Null && r[CreatedAt] == Null
  {
  }
}
