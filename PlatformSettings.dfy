/**
 * The credentials form of src/pages/PlatformSettings.tsx, opened at
 * `/platform-settings/:platformId`: the per-platform field configuration,
 * loading and saving the settings, and the form that is rendered.
 */
module PlatformSettings {
  import opened Util
  import opened Http
  import opened Notice
  import Sync

  datatype FieldKind = TextInput | PasswordInput

  datatype FieldConfig = FieldConfig(name: string, key: string, kind: FieldKind, required: bool,
                                     placeholder: Option<string>)

  datatype PlatformConfig = PlatformConfig(name: string, fields: seq<FieldConfig>)

  const WooCommerceConfig := PlatformConfig("WooCommerce", [
    FieldConfig("Store URL", "url", TextInput, true, Some("https://your-store.com")),
    FieldConfig("Consumer Key", "consumerKey", TextInput, true, None),
    FieldConfig("Consumer Secret", "consumerSecret", PasswordInput, true, None)])

  const ShopifyConfig := PlatformConfig("Shopify", [
    FieldConfig("Shop Name", "shopName", TextInput, true, Some("your-shop.myshopify.com")),
    FieldConfig("Access Token", "accessToken", PasswordInput, true, None)])

  const UberEatsConfig := PlatformConfig("Uber Eats", [
    FieldConfig("Client ID", "clientId", TextInput, true, None),
    FieldConfig("Client Secret", "clientSecret", PasswordInput, true, None)])

  const PrestaShopConfig := PlatformConfig("PrestaShop", [
    FieldConfig("Store URL", "url", TextInput, true, Some("https://your-store.com")),
    FieldConfig("API Key", "apiKey", PasswordInput, true, None)])

  const OdooConfig := PlatformConfig("Odoo", [
    FieldConfig("Server URL", "url", TextInput, true, Some("https://your-server.odoo.com")),
    FieldConfig("Database", "database", TextInput, true, None),
    FieldConfig("Username", "username", TextInput, true, None),
    FieldConfig("Password", "password", PasswordInput, true, None)])

  const DeliverooConfig := PlatformConfig("Deliveroo", [
    FieldConfig("API Key", "apiKey", PasswordInput, true, None),
    FieldConfig("Restaurant ID", "restaurantId", TextInput, true, None)])

  /** The `platformConfigs` table. */
  const PlatformConfigs: map<string, PlatformConfig> := map[
    "woocommerce" := WooCommerceConfig,
    "shopify" := ShopifyConfig,
    "ubereats" := UberEatsConfig,
    "prestashop" := PrestaShopConfig,
    "odoo" := OdooConfig,
    "deliveroo" := DeliverooConfig
  ]

  predicate DistinctKeys(fields: seq<FieldConfig>)
  {
    forall i, j :: 0 <= i < j < |fields| ==> fields[i].key != fields[j].key
  }

  /** At least two fields, every one required, no two sharing a settings key. */
  predicate WellFormedConfig(c: PlatformConfig)
  {
    |c.fields| >= 2 && DistinctKeys(c.fields) && forall f :: f in c.fields ==> f.required
  }

  lemma WooCommerceWellFormed() ensures WellFormedConfig(WooCommerceConfig) {}
  lemma ShopifyWellFormed() ensures WellFormedConfig(ShopifyConfig) {}
  lemma UberEatsWellFormed() ensures WellFormedConfig(UberEatsConfig) {}
  lemma PrestaShopWellFormed() ensures WellFormedConfig(PrestaShopConfig) {}
  lemma OdooWellFormed() ensures WellFormedConfig(OdooConfig) {}
  lemma DeliverooWellFormed() ensures WellFormedConfig(DeliverooConfig) {}

  /** Every platform's form is well formed. */
  lemma ConfigsWellFormed(id: string)
    requires id in PlatformConfigs
    ensures WellFormedConfig(PlatformConfigs[id])
  {
    WooCommerceWellFormed();
    ShopifyWellFormed();
    UberEatsWellFormed();
    PrestaShopWellFormed();
    OdooWellFormed();
    DeliverooWellFormed();
  }

  /**
   * The configured platforms are exactly the six of the sync page, under
   * the same display names, so every settings button there opens a form.
   */
  lemma ConfigsMatchSyncPage()
    ensures forall i :: 0 <= i < |Sync.InitialPlatforms| ==>
      (Sync.InitialPlatforms[i].id in PlatformConfigs &&
       PlatformConfigs[Sync.InitialPlatforms[i].id].name == Sync.InitialPlatforms[i].name)
    ensures forall id :: id in PlatformConfigs ==>
      exists i :: 0 <= i < |Sync.InitialPlatforms| && Sync.InitialPlatforms[i].id == id
  {
    assert PlatformConfigs.Keys == {"woocommerce", "shopify", "ubereats", "prestashop", "odoo", "deliveroo"};
    assert Sync.InitialPlatforms[0].id == "woocommerce" && Sync.InitialPlatforms[1].id == "shopify";
    assert Sync.InitialPlatforms[2].id == "ubereats" && Sync.InitialPlatforms[3].id == "prestashop";
    assert Sync.InitialPlatforms[4].id == "odoo" && Sync.InitialPlatforms[5].id == "deliveroo";
  }

  /** `!platformId || !platformConfigs[platformId]`, negated: the page shows a form. */
  function Known(platformId: Option<string>): (r: bool)
    ensures r <==> platformId.Some? && platformId.value in PlatformConfigs
  {
    Truthy(platformId) && platformId.value in PlatformConfigs
  }

  /** `formData[key] || ''` */
  function FieldValue(formData: map<string, string>, key: string): (r: string)
    ensures key in formData ==> r == formData[key]
    ensures key !in formData ==> r == ""
  {
    if key in formData then OrElse(formData[key], "") else ""
  }

  /** Typing into one field changes what that field shows and no other. */
  lemma InputChangeShown(formData: map<string, string>, key: string, value: string, other: string)
    ensures FieldValue(formData[key := value], key) == value
    ensures other != key ==> FieldValue(formData[key := value], other) == FieldValue(formData, other)
  {
  }

  /** One rendered text field. */
  datatype ShownField = ShownField(caption: string, kind: FieldKind, required: bool,
                                   placeholder: Option<string>, value: string)

  /** What the page renders: nothing, the title above a spinner, or the title above the form. */
  datatype Screen = Blank | Spinner(title: string) | Form(title: string, fields: seq<ShownField>)

  function ShownFields(fields: seq<FieldConfig>, formData: map<string, string>): (r: seq<ShownField>)
    ensures |r| == |fields|
    ensures forall i :: 0 <= i < |fields| ==>
      r[i] == ShownField(fields[i].name, fields[i].kind, fields[i].required, fields[i].placeholder,
                         FieldValue(formData, fields[i].key))
  {
    seq(|fields|, i requires 0 <= i < |fields| =>
      ShownField(fields[i].name, fields[i].kind, fields[i].required, fields[i].placeholder,
                 FieldValue(formData, fields[i].key)))
  }

  function Render(platformId: Option<string>, loading: bool, formData: map<string, string>): (s: Screen)
    ensures s.Blank? <==> !Known(platformId)
    ensures s.Spinner? <==> Known(platformId) && loading
    ensures !s.Blank? ==> s.title == PlatformConfigs[platformId.value].name + " Settings"
    ensures s.Form? ==> |s.fields| == |PlatformConfigs[platformId.value].fields|
    ensures s.Form? ==> forall i :: 0 <= i < |s.fields| ==>
      (s.fields[i].caption == PlatformConfigs[platformId.value].fields[i].name &&
       s.fields[i].value == FieldValue(formData, PlatformConfigs[platformId.value].fields[i].key))
  {
    if !Known(platformId) then Blank
    else
      var config := PlatformConfigs[platformId.value];
      if loading then Spinner(config.name + " Settings")
      else Form(config.name + " Settings", ShownFields(config.fields, formData))
  }

  /** Every field of an opened form is shown as required. */
  lemma RenderedFieldsRequired(platformId: Option<string>, formData: map<string, string>, i: nat)
    requires Known(platformId)
    requires i < |Render(platformId, false, formData).fields|
    ensures Render(platformId, false, formData).fields[i].required
  {
    ConfigsWellFormed(platformId.value);
    assert PlatformConfigs[platformId.value].fields[i] in PlatformConfigs[platformId.value].fields;
  }

  function SettingsPath(id: string): string
  {
    "/api/platforms/" + id + "/settings"
  }

  class SettingsView {
    /** The `:platformId` route parameter. */
    const platformId: Option<string>
    var formData: map<string, string>
    var loading: bool
    var saving: bool
    var notification: Option<Notification>
    /** Every request the page has issued, oldest first. */
    var requests: seq<Request>
    /** Every `navigate(...)` target, oldest first. */
    var navigations: seq<string>

    constructor (platformId: Option<string>)
      ensures this.platformId == platformId
      ensures formData == map[] && loading && !saving && notification == None
      ensures requests == [] && navigations == []
    {
      this.platformId := platformId;
      formData, loading, saving, notification := map[], true, false, None;
      requests, navigations := [], [];
    }

    /**
     * loadSettings, with the answer to the GET call; falsy data is `None`.
     * An unknown platform sends the user back to the sync page, with no
     * request.
     */
    method LoadSettings(reply: Reply<Option<map<string, string>>>)
      modifies this`formData, this`loading, this`notification, this`requests, this`navigations
      ensures !Known(platformId) ==>
        (navigations == old(navigations) + ["/sync"] && requests == old(requests) &&
         formData == old(formData) && loading == old(loading) && notification == old(notification))
      ensures Known(platformId) ==>
        (navigations == old(navigations) && !loading &&
         requests == old(requests) + [Request(GET, SettingsPath(platformId.value))])
      ensures Known(platformId) && reply.Ok? ==>
        (formData == (if reply.data.Some? then reply.data.value else map[]) && notification == old(notification))
      ensures Known(platformId) && reply.Fail? ==>
        (formData == old(formData) &&
         notification == Some(Notification(Error, "Failed to load settings: " + ErrorDetail(reply.error))))
    {
      if !Known(platformId) {
        navigations := navigations + ["/sync"];
        return;
      }
      loading := true;
      requests := requests + [Request(GET, SettingsPath(platformId.value))];
      match reply {
        case Ok(data) =>
          formData := if data.Some? then data.value else map[];
        case Fail(e) =>
          notification := Some(Notification(Error, "Failed to load settings: " + ErrorDetail(e)));
      }
      loading := false;
    }

    /**
     * The synchronous part of handleSave, up to the POST: without a
     * platform id nothing happens, otherwise the form is posted and the
     * page is `saving`.
     */
    method BeginSave() returns (started: bool)
      modifies this`saving, this`requests
      ensures started <==> Truthy(platformId)
      ensures !started ==> (saving == old(saving) && requests == old(requests))
      ensures started ==> (saving && requests == old(requests) + [Request(POST, SettingsPath(platformId.value))])
      ensures started ==> SaveDisabled()
    {
      if !Truthy(platformId) {
        return false;
      }
      saving := true;
      requests := requests + [Request(POST, SettingsPath(platformId.value))];
      started := true;
    }

    /** The rest of handleSave, once the POST has been answered. */
    method SettleSave(reply: Reply<()>)
      modifies this`saving, this`notification
      ensures !saving && !SaveDisabled()
      ensures reply.Ok? ==> notification == Some(Notification(Success, "Settings saved successfully"))
      ensures reply.Fail? ==>
        notification == Some(Notification(Error, "Failed to save settings: " + ErrorDetail(reply.error)))
    {
      match reply {
        case Ok(_) =>
          notification := Some(Notification(Success, "Settings saved successfully"));
        case Fail(e) =>
          notification := Some(Notification(Error, "Failed to save settings: " + ErrorDetail(e)));
      }
      saving := false;
    }

    /** handleSave, from click to answer. */
    method Save(reply: Reply<()>)
      modifies this`saving, this`requests, this`notification
      ensures !Truthy(platformId) ==>
        (saving == old(saving) && requests == old(requests) && notification == old(notification))
      ensures Truthy(platformId) ==>
        (!saving && !SaveDisabled() && requests == old(requests) + [Request(POST, SettingsPath(platformId.value))])
      ensures Truthy(platformId) && reply.Ok? ==>
        notification == Some(Notification(Success, "Settings saved successfully"))
      ensures Truthy(platformId) && reply.Fail? ==>
        notification == Some(Notification(Error, "Failed to save settings: " + ErrorDetail(reply.error)))
    {
      var started := BeginSave();
      if started {
        SettleSave(reply);
      }
    }

    /** handleInputChange */
    method InputChange(key: string, value: string)
      modifies this`formData
      ensures formData == old(formData)[key := value]
    {
      formData := formData[key := value];
    }

    /** The back arrow and the Cancel button. */
    method Leave()
      modifies this`navigations
      ensures navigations == old(navigations) + ["/sync"]
    {
      navigations := navigations + ["/sync"];
    }

    /** The alert's `onClose`. */
    method DismissNotification()
      modifies this`notification
      ensures notification == None
    {
      notification := None;
    }

    /** The save button is disabled while a save is in flight. */
    function SaveDisabled(): (r: bool)
      reads this
      ensures r <==> saving
    {
      saving
    }

  }
}
