/** The claim-form table of the frontend: for each claim type the fields of its form, in order,
    and the lookup by category and subcategory. Labels, placeholders, help texts, layout widths
    and character counters are presentation only and are left out of each field. */
module ClaimFieldsConfig {
  import opened Wrappers
  import ClaimService

  datatype FieldKind = TextInput | TextArea | Select | DateInput | DateTimeInput | Radio | Checkbox | Tel | NumberInput

  /** Show the field only while `field` has one of `values` (a single value in the source is a
      one-element list here). */
  datatype DependsOn = DependsOn(field: string, values: seq<string>)

  /** A form field: its name, input kind, whether it is required, its length limit, the values of
      its options, and the field it depends on. */
  datatype FieldConfig = FieldConfig(
    name: string, kind: FieldKind, required: bool, maxLength: Option<nat>,
    options: seq<string>, dependsOn: Option<DependsOn>)

  // ----- the shared field groups -----

  const IncidentDate: FieldConfig :=
    FieldConfig("incident_date", DateInput, true, None, [], None)

  const IncidentSummary: FieldConfig :=
    FieldConfig("incident_summary", TextArea, true, Some(250), [], None)

  const AdditionalNotes: FieldConfig :=
    FieldConfig("additional_notes", TextArea, false, Some(250), [], None)

  const OtherPartyInvolved: FieldConfig :=
    FieldConfig("other_party_involved", Radio, true, None, ["yes", "no"], None)

  const OtherPartyName: FieldConfig :=
    FieldConfig("other_party_name", TextInput, true, Some(200), [], Some(DependsOn("other_party_involved", ["yes"])))

  const OtherPartyInsurance: FieldConfig :=
    FieldConfig("other_party_insurance", TextInput, false, Some(100), [], Some(DependsOn("other_party_involved", ["yes"])))

  const PoliceReportFiled: FieldConfig :=
    FieldConfig("police_report_filed", Radio, true, None, ["yes", "no"], None)

  const PoliceReportNumber: FieldConfig :=
    FieldConfig("police_report_number", TextInput, true, Some(50), [], Some(DependsOn("police_report_filed", ["yes"])))

  const PoliceDepartment: FieldConfig :=
    FieldConfig("police_department", TextInput, true, Some(100), [], Some(DependsOn("police_report_filed", ["yes"])))

  const DamageDescription: FieldConfig :=
    FieldConfig("damage_description", TextArea, true, Some(250), [], None)

  // ----- the forms, by claim type -----

  const VehicleAuto: seq<FieldConfig> := [
    FieldConfig("incident_type", Select, true, None, ["", "collision_vehicle", "collision_object", "hit_and_run", "vandalism", "theft", "glass_damage", "weather_damage", "animal_collision", "other"], None),
    FieldConfig("incident_location", TextInput, true, Some(250), [], None),
    OtherPartyInvolved,
    OtherPartyName,
    OtherPartyInsurance,
    PoliceReportFiled,
    PoliceReportNumber,
    PoliceDepartment,
    FieldConfig("vehicle_drivable", Radio, true, None, ["yes", "no"], None),
    DamageDescription]

  const VehicleMotorcycle: seq<FieldConfig> := [
    FieldConfig("incident_type", Select, true, None, ["", "collision_vehicle", "collision_object", "dropped_bike", "theft", "vandalism", "weather_damage", "other"], None),
    FieldConfig("incident_location", TextInput, true, Some(250), [], None),
    FieldConfig("protective_gear", Checkbox, false, None, ["helmet", "jacket", "gloves", "boots", "pants", "none"], None),
    OtherPartyInvolved,
    OtherPartyName,
    OtherPartyInsurance,
    PoliceReportFiled,
    PoliceReportNumber,
    PoliceDepartment,
    FieldConfig("motorcycle_drivable", Radio, true, None, ["yes", "no"], None),
    DamageDescription]

  const VehicleAtv: seq<FieldConfig> := [
    FieldConfig("incident_type", Select, true, None, ["", "rollover", "collision", "mechanical_failure", "theft", "vandalism", "other"], None),
    FieldConfig("incident_location", TextInput, true, Some(250), [], None),
    FieldConfig("terrain_type", Select, true, None, ["", "trail", "desert", "mountain", "private_property", "other"], None),
    OtherPartyInvolved,
    OtherPartyName,
    OtherPartyInsurance,
    FieldConfig("injuries_sustained", Radio, true, None, ["yes", "no"], None),
    FieldConfig("medical_attention", Radio, true, None, ["yes", "no"], Some(DependsOn("injuries_sustained", ["yes"]))),
    FieldConfig("vehicle_operational", Radio, true, None, ["yes", "no"], None),
    DamageDescription]

  const VehicleRoadside: seq<FieldConfig> := [
    FieldConfig("service_type", Select, true, None, ["", "flat_tire", "dead_battery", "lockout", "out_of_fuel", "tow_needed", "other"], None),
    FieldConfig("service_location", TextInput, true, Some(250), [], None),
    FieldConfig("service_datetime", DateTimeInput, true, None, [], None),
    FieldConfig("service_provider", TextInput, false, Some(100), [], None),
    FieldConfig("service_description", TextArea, true, Some(250), [], None)]

  const VehicleSnowmobile: seq<FieldConfig> := [
    FieldConfig("incident_type", Select, true, None, ["", "collision", "rollover", "avalanche", "theft", "vandalism", "mechanical_failure", "other"], None),
    FieldConfig("incident_location", TextInput, true, Some(250), [], None),
    FieldConfig("weather_conditions", Select, true, None, ["", "clear", "snowing", "icy", "blizzard", "poor_visibility"], None),
    OtherPartyInvolved,
    OtherPartyName,
    OtherPartyInsurance,
    FieldConfig("injuries_sustained", Radio, true, None, ["yes", "no"], None),
    FieldConfig("medical_attention", Radio, true, None, ["yes", "no"], Some(DependsOn("injuries_sustained", ["yes"]))),
    FieldConfig("snowmobile_operational", Radio, true, None, ["yes", "no"], None),
    DamageDescription]

  const VehicleBoat: seq<FieldConfig> := [
    FieldConfig("incident_type", Select, true, None, ["", "collision_vessel", "collision_object", "sinking", "fire", "theft", "vandalism", "weather_damage", "grounding", "other"], None),
    FieldConfig("incident_location", Select, true, None, ["", "lake", "river", "ocean", "marina", "storage_facility", "trailer"], None),
    FieldConfig("water_conditions", Select, true, None, ["", "calm", "moderate", "rough", "storm"], None),
    FieldConfig("other_vessel_involved", Radio, true, None, ["yes", "no"], None),
    FieldConfig("other_vessel_operator", TextInput, true, Some(200), [], Some(DependsOn("other_vessel_involved", ["yes"]))),
    FieldConfig("other_vessel_registration", TextInput, false, Some(50), [], Some(DependsOn("other_vessel_involved", ["yes"]))),
    FieldConfig("coast_guard_report", Radio, true, None, ["yes", "no"], None),
    FieldConfig("coast_guard_report_number", TextInput, true, Some(50), [], Some(DependsOn("coast_guard_report", ["yes"]))),
    FieldConfig("boat_operational", Radio, true, None, ["yes", "no"], None),
    DamageDescription]

  const VehicleRv: seq<FieldConfig> := [
    FieldConfig("incident_type", Select, true, None, ["", "collision", "fire", "theft", "vandalism", "weather_damage", "water_damage", "appliance_failure", "other"], None),
    FieldConfig("incident_location", TextInput, true, Some(250), [], None),
    FieldConfig("rv_in_motion", Radio, true, None, ["yes", "no"], None),
    OtherPartyInvolved,
    OtherPartyName,
    OtherPartyInsurance,
    PoliceReportFiled,
    PoliceReportNumber,
    PoliceDepartment,
    FieldConfig("rv_drivable", Radio, true, None, ["yes", "no"], None),
    FieldConfig("living_quarters_affected", Radio, true, None, ["yes", "no"], None),
    DamageDescription]

  const VehicleVehicleProtection: seq<FieldConfig> := [
    FieldConfig("issue_type", Select, true, None, ["", "mechanical_breakdown", "engine_failure", "transmission_failure", "electrical_issue", "other"], None),
    FieldConfig("current_mileage", NumberInput, true, None, [], None),
    FieldConfig("warning_signs", TextArea, false, Some(250), [], None),
    FieldConfig("vehicle_operable", Radio, true, None, ["yes", "no"], None),
    FieldConfig("issue_description", TextArea, true, Some(250), [], None)]

  const PropertyHomeowners: seq<FieldConfig> := [
    FieldConfig("incident_type", Select, true, None, ["", "fire", "water_damage", "wind_damage", "hail_damage", "theft", "vandalism", "liability_claim", "tree_damage", "other"], None),
    FieldConfig("area_affected", Checkbox, true, None, ["roof", "exterior_walls", "interior", "kitchen", "bathroom", "bedrooms", "basement", "garage", "yard", "other"], None),
    FieldConfig("damage_extent", Select, true, None, ["", "minor", "moderate", "severe", "catastrophic"], None),
    FieldConfig("emergency_repairs_needed", Radio, true, None, ["yes", "no"], None),
    FieldConfig("currently_living_in_home", Radio, true, None, ["yes", "no"], None),
    PoliceReportFiled,
    PoliceReportNumber,
    PoliceDepartment,
    DamageDescription]

  const PropertyRenters: seq<FieldConfig> := [
    FieldConfig("incident_type", Select, true, None, ["", "theft", "fire", "water_damage", "vandalism", "liability_claim", "other"], None),
    FieldConfig("items_affected", Checkbox, true, None, ["electronics", "furniture", "clothing", "jewelry", "appliances", "other_personal_property"], None),
    PoliceReportFiled,
    PoliceReportNumber,
    PoliceDepartment,
    FieldConfig("landlord_notified", Radio, true, None, ["yes", "no"], None),
    DamageDescription]

  const PropertyCondo: seq<FieldConfig> := [
    FieldConfig("incident_type", Select, true, None, ["", "fire", "water_damage", "wind_damage", "theft", "vandalism", "liability_claim", "other"], None),
    FieldConfig("area_affected", Checkbox, true, None, ["unit_interior", "balcony_patio", "personal_property", "common_area", "other"], None),
    FieldConfig("damage_extent", Select, true, None, ["", "minor", "moderate", "severe", "catastrophic"], None),
    FieldConfig("hoa_notified", Radio, true, None, ["yes", "no"], None),
    FieldConfig("common_area_issue", Radio, true, None, ["yes", "no"], None),
    FieldConfig("currently_living_in_unit", Radio, true, None, ["yes", "no"], None),
    DamageDescription]

  const PropertyLandlord: seq<FieldConfig> := [
    FieldConfig("incident_type", Select, true, None, ["", "fire", "water_damage", "wind_damage", "tenant_damage", "vandalism", "liability_claim", "other"], None),
    FieldConfig("tenant_involved", Radio, true, None, ["yes", "no"], None),
    FieldConfig("tenant_name", TextInput, true, Some(200), [], Some(DependsOn("tenant_involved", ["yes"]))),
    FieldConfig("tenant_caused_damage", Radio, true, None, ["yes", "no"], Some(DependsOn("tenant_involved", ["yes"]))),
    FieldConfig("property_occupied", Radio, true, None, ["yes", "no"], None),
    FieldConfig("rent_interruption", Radio, true, None, ["yes", "no"], None),
    DamageDescription]

  const PropertyMobileHome: seq<FieldConfig> := [
    FieldConfig("incident_type", Select, true, None, ["", "fire", "water_damage", "wind_damage", "structural_damage", "theft", "vandalism", "other"], None),
    FieldConfig("area_affected", Checkbox, true, None, ["roof", "exterior", "interior", "skirting", "deck_steps", "shed", "other"], None),
    FieldConfig("damage_extent", Select, true, None, ["", "minor", "moderate", "severe", "catastrophic"], None),
    FieldConfig("mobile_home_movable", Radio, true, None, ["yes", "no"], None),
    FieldConfig("currently_living_in_mobile_home", Radio, true, None, ["yes", "no"], None),
    DamageDescription]

  const Life: seq<FieldConfig> := [
    FieldConfig("claim_type", Select, true, None, ["", "death", "terminal_illness", "critical_illness", "other"], None),
    FieldConfig("date_of_event", DateInput, true, None, [], None),
    FieldConfig("physician_name", TextInput, false, Some(100), [], None),
    FieldConfig("medical_facility", TextInput, false, Some(100), [], None),
    FieldConfig("brief_description", TextArea, true, Some(250), [], None)]

  const Business: seq<FieldConfig> := [
    FieldConfig("incident_type", Select, true, None, ["", "property_damage", "liability_claim", "business_interruption", "employee_injury", "data_breach", "theft", "vandalism", "other"], None),
    FieldConfig("business_status", Select, true, None, ["", "fully_operational", "partially_operational", "temporarily_closed"], None),
    FieldConfig("employees_affected", Radio, true, None, ["yes", "no"], None),
    FieldConfig("third_parties_involved", Radio, true, None, ["yes", "no"], None),
    FieldConfig("third_party_type", Select, true, None, ["", "customer", "vendor", "contractor", "other_business", "other"], Some(DependsOn("third_parties_involved", ["yes"]))),
    PoliceReportFiled,
    PoliceReportNumber,
    PoliceDepartment,
    FieldConfig("incident_description", TextArea, true, Some(250), [], None)]

  const IdentityProtection: seq<FieldConfig> := [
    FieldConfig("incident_type", Select, true, None, ["", "credit_card_fraud", "bank_account_fraud", "identity_theft", "data_breach", "phishing", "tax_fraud", "medical_identity_theft", "other"], None),
    FieldConfig("date_discovered", DateInput, true, None, [], None),
    FieldConfig("accounts_affected", Checkbox, true, None, ["bank_account", "credit_card", "investment_account", "social_security", "medical_records", "tax_records", "other"], None),
    PoliceReportFiled,
    PoliceReportNumber,
    PoliceDepartment,
    FieldConfig("financial_institutions_notified", Radio, true, None, ["yes", "no"], None),
    FieldConfig("credit_bureaus_notified", Radio, true, None, ["yes", "no"], None),
    FieldConfig("incident_description", TextArea, true, Some(250), [], None)]

  const OtherUmbrella: seq<FieldConfig> := [
    FieldConfig("underlying_incident_type", Select, true, None, ["", "auto_liability", "home_liability", "boat_liability", "business_liability", "other_liability"], None),
    FieldConfig("primary_insurance_claim_filed", Radio, true, None, ["yes", "no"], None),
    FieldConfig("primary_insurance_company", TextInput, true, Some(100), [], Some(DependsOn("primary_insurance_claim_filed", ["yes"]))),
    FieldConfig("third_party_involved", Radio, true, None, ["yes", "no"], None),
    FieldConfig("lawsuit_filed", Radio, true, None, ["yes", "no"], None),
    FieldConfig("incident_description", TextArea, true, Some(250), [], None)]

  const OtherIndividualHealth: seq<FieldConfig> := [
    FieldConfig("service_type", Select, true, None, ["", "medical_procedure", "hospital_stay", "emergency_care", "prescription", "medical_equipment", "other"], None),
    FieldConfig("service_date", DateInput, true, None, [], None),
    FieldConfig("healthcare_provider", TextInput, true, Some(100), [], None),
    FieldConfig("provider_type", Select, true, None, ["", "hospital", "clinic", "doctors_office", "urgent_care", "emergency_room", "pharmacy", "other"], None),
    FieldConfig("service_description", TextArea, true, Some(250), [], None)]

  const OtherPet: seq<FieldConfig> := [
    FieldConfig("pet_name", TextInput, true, Some(50), [], None),
    FieldConfig("incident_type", Select, true, None, ["", "illness", "injury", "surgery", "emergency_care", "other"], None),
    FieldConfig("treatment_date", DateInput, true, None, [], None),
    FieldConfig("veterinary_clinic", TextInput, true, Some(100), [], None),
    FieldConfig("treatment_description", TextArea, true, Some(250), [], None)]

  const OtherEvent: seq<FieldConfig> := [
    FieldConfig("event_name", TextInput, true, Some(100), [], None),
    FieldConfig("event_date", DateInput, true, None, [], None),
    FieldConfig("incident_type", Select, true, None, ["", "cancellation", "postponement", "property_damage", "liability_claim", "vendor_no_show", "weather", "other"], None),
    FieldConfig("cancellation_date", DateInput, true, None, [], None),
    FieldConfig("reason_description", TextArea, true, Some(250), [], None)]

  const OtherTravel: seq<FieldConfig> := [
    FieldConfig("trip_destination", TextInput, true, Some(100), [], None),
    FieldConfig("incident_type", Select, true, None, ["", "trip_cancellation", "trip_interruption", "baggage_loss", "baggage_delay", "medical_emergency", "travel_delay", "missed_connection", "other"], None),
    FieldConfig("scheduled_departure", DateInput, true, None, [], None),
    FieldConfig("incident_date", DateInput, true, None, [], None),
    FieldConfig("incident_description", TextArea, true, Some(250), [], None)]

  const OtherJewelry: seq<FieldConfig> := [
    FieldConfig("number_of_items", Select, true, None, ["", "1", "2", "3", "4", "5+"], None),
    FieldConfig("incident_type", Select, true, None, ["", "theft", "loss", "damage", "other"], None),
    FieldConfig("incident_location", TextInput, true, Some(250), [], None),
    PoliceReportFiled,
    PoliceReportNumber,
    PoliceDepartment,
    FieldConfig("incident_description", TextArea, true, Some(250), [], None)]

  const OtherCollectibles: seq<FieldConfig> := [
    FieldConfig("number_of_items", Select, true, None, ["", "1", "2-5", "6-10", "11+"], None),
    FieldConfig("item_types", Checkbox, true, None, ["art", "coins", "stamps", "sports_memorabilia", "antiques", "other"], None),
    FieldConfig("incident_type", Select, true, None, ["", "theft", "fire", "water_damage", "damage", "other"], None),
    FieldConfig("incident_location", TextInput, true, Some(250), [], None),
    PoliceReportFiled,
    PoliceReportNumber,
    PoliceDepartment,
    FieldConfig("incident_description", TextArea, true, Some(250), [], None)]

  /** `claimFieldsConfig`. */
  const ClaimFieldsConfig: map<string, seq<FieldConfig>> := map[
    "vehicle_auto" := VehicleAuto,
    "vehicle_motorcycle" := VehicleMotorcycle,
    "vehicle_atv" := VehicleAtv,
    "vehicle_roadside" := VehicleRoadside,
    "vehicle_snowmobile" := VehicleSnowmobile,
    "vehicle_boat" := VehicleBoat,
    "vehicle_rv" := VehicleRv,
    "vehicle_vehicle_protection" := VehicleVehicleProtection,
    "property_homeowners" := PropertyHomeowners,
    "property_renters" := PropertyRenters,
    "property_condo" := PropertyCondo,
    "property_landlord" := PropertyLandlord,
    "property_mobile_home" := PropertyMobileHome,
    "life" := Life,
    "business" := Business,
    "identity_protection" := IdentityProtection,
    "other_umbrella" := OtherUmbrella,
    "other_individual_health" := OtherIndividualHealth,
    "other_pet" := OtherPet,
    "other_event" := OtherEvent,
    "other_travel" := OtherTravel,
    "other_jewelry" := OtherJewelry,
    "other_collectibles" := OtherCollectibles]

  // ----- what every form satisfies -----

  /** Field `a` controls field `b`: `b` depends on `a` by name, and every value it waits for is
      one of the options of `a`. */
  predicate Controls(a: FieldConfig, b: FieldConfig)
  {
    b.dependsOn.Some? && a.name == b.dependsOn.value.field
    && forall v :: v in b.dependsOn.value.values ==> v in a.options
  }

  /** The field at `i` depends on a field that comes before it in the same form. */
  predicate ControlledByEarlier(fields: seq<FieldConfig>, i: int)
  {
    0 <= i < |fields| && exists j :: 0 <= j < i && Controls(fields[j], fields[i])
  }

  /** Every dependent field of a form follows the field it depends on, waiting for values that
      field offers. */
  predicate WellFormedForm(fields: seq<FieldConfig>)
  {
    forall i :: 0 <= i < |fields| && fields[i].dependsOn.Some? ==> ControlledByEarlier(fields, i)
  }

  lemma VehicleAutoWellFormed()
    ensures WellFormedForm(VehicleAuto)
  {
    var fields := VehicleAuto;
    forall i | 0 <= i < |fields| && fields[i].dependsOn.Some? ensures ControlledByEarlier(fields, i) {
      if i == 3 {
        assert Controls(fields[2], fields[3]);
      } else if i == 4 {
        assert Controls(fields[2], fields[4]);
      } else if i == 6 {
        assert Controls(fields[5], fields[6]);
      } else if i == 7 {
        assert Controls(fields[5], fields[7]);
      } else {
        assert false;
      }
    }
  }

  lemma VehicleMotorcycleWellFormed()
    ensures WellFormedForm(VehicleMotorcycle)
  {
    var fields := VehicleMotorcycle;
    forall i | 0 <= i < |fields| && fields[i].dependsOn.Some? ensures ControlledByEarlier(fields, i) {
      if i == 4 {
        assert Controls(fields[3], fields[4]);
      } else if i == 5 {
        assert Controls(fields[3], fields[5]);
      } else if i == 7 {
        assert Controls(fields[6], fields[7]);
      } else if i == 8 {
        assert Controls(fields[6], fields[8]);
      } else {
        assert false;
      }
    }
  }

  lemma VehicleAtvWellFormed()
    ensures WellFormedForm(VehicleAtv)
  {
    var fields := VehicleAtv;
    forall i | 0 <= i < |fields| && fields[i].dependsOn.Some? ensures ControlledByEarlier(fields, i) {
      if i == 4 {
        assert Controls(fields[3], fields[4]);
      } else if i == 5 {
        assert Controls(fields[3], fields[5]);
      } else if i == 7 {
        assert Controls(fields[6], fields[7]);
      } else {
        assert false;
      }
    }
  }

  lemma VehicleRoadsideWellFormed()
    ensures WellFormedForm(VehicleRoadside)
  {
    var fields := VehicleRoadside;
  }

  lemma VehicleSnowmobileWellFormed()
    ensures WellFormedForm(VehicleSnowmobile)
  {
    var fields := VehicleSnowmobile;
    forall i | 0 <= i < |fields| && fields[i].dependsOn.Some? ensures ControlledByEarlier(fields, i) {
      if i == 4 {
        assert Controls(fields[3], fields[4]);
      } else if i == 5 {
        assert Controls(fields[3], fields[5]);
      } else if i == 7 {
        assert Controls(fields[6], fields[7]);
      } else {
        assert false;
      }
    }
  }

  lemma VehicleBoatWellFormed()
    ensures WellFormedForm(VehicleBoat)
  {
    var fields := VehicleBoat;
    forall i | 0 <= i < |fields| && fields[i].dependsOn.Some? ensures ControlledByEarlier(fields, i) {
      if i == 4 {
        assert Controls(fields[3], fields[4]);
      } else if i == 5 {
        assert Controls(fields[3], fields[5]);
      } else if i == 7 {
        assert Controls(fields[6], fields[7]);
      } else {
        assert false;
      }
    }
  }

  lemma VehicleRvWellFormed()
    ensures WellFormedForm(VehicleRv)
  {
    var fields := VehicleRv;
    forall i | 0 <= i < |fields| && fields[i].dependsOn.Some? ensures ControlledByEarlier(fields, i) {
      if i == 4 {
        assert Controls(fields[3], fields[4]);
      } else if i == 5 {
        assert Controls(fields[3], fields[5]);
      } else if i == 7 {
        assert Controls(fields[6], fields[7]);
      } else if i == 8 {
        assert Controls(fields[6], fields[8]);
      } else {
        assert false;
      }
    }
  }

  lemma VehicleVehicleProtectionWellFormed()
    ensures WellFormedForm(VehicleVehicleProtection)
  {
    var fields := VehicleVehicleProtection;
  }

  lemma PropertyHomeownersWellFormed()
    ensures WellFormedForm(PropertyHomeowners)
  {
    var fields := PropertyHomeowners;
    forall i | 0 <= i < |fields| && fields[i].dependsOn.Some? ensures ControlledByEarlier(fields, i) {
      if i == 6 {
        assert Controls(fields[5], fields[6]);
      } else if i == 7 {
        assert Controls(fields[5], fields[7]);
      } else {
        assert false;
      }
    }
  }

  lemma PropertyRentersWellFormed()
    ensures WellFormedForm(PropertyRenters)
  {
    var fields := PropertyRenters;
    forall i | 0 <= i < |fields| && fields[i].dependsOn.Some? ensures ControlledByEarlier(fields, i) {
      if i == 3 {
        assert Controls(fields[2], fields[3]);
      } else if i == 4 {
        assert Controls(fields[2], fields[4]);
      } else {
        assert false;
      }
    }
  }

  lemma PropertyCondoWellFormed()
    ensures WellFormedForm(PropertyCondo)
  {
    var fields := PropertyCondo;
  }

  lemma PropertyLandlordWellFormed()
    ensures WellFormedForm(PropertyLandlord)
  {
    var fields := PropertyLandlord;
    forall i | 0 <= i < |fields| && fields[i].dependsOn.Some? ensures ControlledByEarlier(fields, i) {
      if i == 2 {
        assert Controls(fields[1], fields[2]);
      } else if i == 3 {
        assert Controls(fields[1], fields[3]);
      } else {
        assert false;
      }
    }
  }

  lemma PropertyMobileHomeWellFormed()
    ensures WellFormedForm(PropertyMobileHome)
  {
    var fields := PropertyMobileHome;
  }

  lemma LifeWellFormed()
    ensures WellFormedForm(Life)
  {
    var fields := Life;
  }

  lemma BusinessWellFormed()
    ensures WellFormedForm(Business)
  {
    var fields := Business;
    forall i | 0 <= i < |fields| && fields[i].dependsOn.Some? ensures ControlledByEarlier(fields, i) {
      if i == 4 {
        assert Controls(fields[3], fields[4]);
      } else if i == 6 {
        assert Controls(fields[5], fields[6]);
      } else if i == 7 {
        assert Controls(fields[5], fields[7]);
      } else {
        assert false;
      }
    }
  }

  lemma IdentityProtectionWellFormed()
    ensures WellFormedForm(IdentityProtection)
  {
    var fields := IdentityProtection;
    forall i | 0 <= i < |fields| && fields[i].dependsOn.Some? ensures ControlledByEarlier(fields, i) {
      if i == 4 {
        assert Controls(fields[3], fields[4]);
      } else if i == 5 {
        assert Controls(fields[3], fields[5]);
      } else {
        assert false;
      }
    }
  }

  lemma OtherUmbrellaWellFormed()
    ensures WellFormedForm(OtherUmbrella)
  {
    var fields := OtherUmbrella;
    forall i | 0 <= i < |fields| && fields[i].dependsOn.Some? ensures ControlledByEarlier(fields, i) {
      if i == 2 {
        assert Controls(fields[1], fields[2]);
      } else {
        assert false;
      }
    }
  }

  lemma OtherIndividualHealthWellFormed()
    ensures WellFormedForm(OtherIndividualHealth)
  {
    var fields := OtherIndividualHealth;
  }

  lemma OtherPetWellFormed()
    ensures WellFormedForm(OtherPet)
  {
    var fields := OtherPet;
  }

  lemma OtherEventWellFormed()
    ensures WellFormedForm(OtherEvent)
  {
    var fields := OtherEvent;
  }

  lemma OtherTravelWellFormed()
    ensures WellFormedForm(OtherTravel)
  {
    var fields := OtherTravel;
  }

  lemma OtherJewelryWellFormed()
    ensures WellFormedForm(OtherJewelry)
  {
    var fields := OtherJewelry;
    forall i | 0 <= i < |fields| && fields[i].dependsOn.Some? ensures ControlledByEarlier(fields, i) {
      if i == 4 {
        assert Controls(fields[3], fields[4]);
      } else if i == 5 {
        assert Controls(fields[3], fields[5]);
      } else {
        assert false;
      }
    }
  }

  lemma OtherCollectiblesWellFormed()
    ensures WellFormedForm(OtherCollectibles)
  {
    var fields := OtherCollectibles;
    forall i | 0 <= i < |fields| && fields[i].dependsOn.Some? ensures ControlledByEarlier(fields, i) {
      if i == 5 {
        assert Controls(fields[4], fields[5]);
      } else if i == 6 {
        assert Controls(fields[4], fields[6]);
      } else {
        assert false;
      }
    }
  }

  /** The keys of the vehicle forms. */
  const VehicleFormKeys: set<string> := {"vehicle_auto", "vehicle_motorcycle", "vehicle_atv", "vehicle_roadside", "vehicle_snowmobile", "vehicle_boat", "vehicle_rv", "vehicle_vehicle_protection"}

  /** The keys of the property forms. */
  const PropertyFormKeys: set<string> := {"property_homeowners", "property_renters", "property_condo", "property_landlord", "property_mobile_home"}

  /** The keys of the forms of the categories without subcategories. */
  const CategoryFormKeys: set<string> := {"life", "business", "identity_protection"}

  /** The keys of the forms of the `other` category. */
  const OtherFormKeys: set<string> := {"other_umbrella", "other_individual_health", "other_pet", "other_event", "other_travel", "other_jewelry", "other_collectibles"}

  /** The keys of the table. */
  const FormKeys: set<string> := VehicleFormKeys + PropertyFormKeys + CategoryFormKeys + OtherFormKeys

  lemma TableKeys()
    ensures forall key :: key in ClaimFieldsConfig <==> key in FormKeys
  {
  }

  /** Every form in the table is well formed and has fields. */
  lemma TableWellFormed()
    ensures forall key :: key in ClaimFieldsConfig ==> ClaimFieldsConfig[key] != [] && WellFormedForm(ClaimFieldsConfig[key])
  {
    forall key | key in ClaimFieldsConfig ensures ClaimFieldsConfig[key] != [] && WellFormedForm(ClaimFieldsConfig[key]) {
      if key in OtherFormKeys {
        OtherEntries(key);
      } else if key in CategoryFormKeys {
        CategoryEntries(key);
      } else if key in PropertyFormKeys {
        PropertyEntries(key);
      } else {
        VehicleEntries(key);
      }
    }
  }

  /** The entries of the forms of the `other` category. The keys are tried from the last entry of the display
      to the first, so that each branch already knows the key differs from every later one. */
  lemma OtherEntries(key: string)
    requires key in OtherFormKeys
    ensures key in ClaimFieldsConfig && ClaimFieldsConfig[key] != [] && WellFormedForm(ClaimFieldsConfig[key])
  {
    if key == "other_collectibles" {
      OtherCollectiblesWellFormed();
    } else if key == "other_jewelry" {
      OtherJewelryWellFormed();
    } else if key == "other_travel" {
      OtherTravelWellFormed();
    } else if key == "other_event" {
      OtherEventWellFormed();
    } else {
      EarlierOtherEntries(key);
    }
  }

  /** The first entries of the forms of the `other` category. */
  lemma EarlierOtherEntries(key: string)
    requires key in OtherFormKeys
    requires key != "other_event" && key != "other_travel" && key != "other_jewelry" && key != "other_collectibles"
    ensures key in ClaimFieldsConfig && ClaimFieldsConfig[key] != [] && WellFormedForm(ClaimFieldsConfig[key])
  {
    if key == "other_pet" {
      OtherPetWellFormed();
    } else if key == "other_individual_health" {
      OtherIndividualHealthWellFormed();
    } else if key == "other_umbrella" {
      OtherUmbrellaWellFormed();
    }
  }

  /** The entries of the forms of the categories without subcategories. The keys are tried from the last entry of the display
      to the first, so that each branch already knows the key differs from every later one. */
  lemma CategoryEntries(key: string)
    requires key in CategoryFormKeys
    requires key !in OtherFormKeys
    ensures key in ClaimFieldsConfig && ClaimFieldsConfig[key] != [] && WellFormedForm(ClaimFieldsConfig[key])
  {
    if key == "identity_protection" {
      IdentityProtectionWellFormed();
    } else if key == "business" {
      BusinessWellFormed();
    } else if key == "life" {
      LifeWellFormed();
    }
  }

  /** The entries of the property forms. The keys are tried from the last entry of the display
      to the first, so that each branch already knows the key differs from every later one. */
  lemma PropertyEntries(key: string)
    requires key in PropertyFormKeys
    requires key !in OtherFormKeys
    requires key !in CategoryFormKeys
    ensures key in ClaimFieldsConfig && ClaimFieldsConfig[key] != [] && WellFormedForm(ClaimFieldsConfig[key])
  {
    if key == "property_mobile_home" {
      PropertyMobileHomeWellFormed();
    } else if key == "property_landlord" {
      PropertyLandlordWellFormed();
    } else if key == "property_condo" {
      PropertyCondoWellFormed();
    } else if key == "property_renters" {
      PropertyRentersWellFormed();
    } else if key == "property_homeowners" {
      PropertyHomeownersWellFormed();
    }
  }

  /** The entries of the vehicle forms. The keys are tried from the last entry of the display
      to the first, so that each branch already knows the key differs from every later one. */
  lemma VehicleEntries(key: string)
    requires key in VehicleFormKeys
    requires key !in OtherFormKeys
    requires key !in CategoryFormKeys
    requires key !in PropertyFormKeys
    ensures key in ClaimFieldsConfig && ClaimFieldsConfig[key] != [] && WellFormedForm(ClaimFieldsConfig[key])
  {
    if key == "vehicle_vehicle_protection" {
      VehicleVehicleProtectionWellFormed();
    } else if key == "vehicle_rv" {
      VehicleRvWellFormed();
    } else if key == "vehicle_boat" {
      VehicleBoatWellFormed();
    } else if key == "vehicle_snowmobile" {
      VehicleSnowmobileWellFormed();
    } else {
      EarlierVehicleEntries(key);
    }
  }

  /** The first entries of the vehicle forms. */
  lemma EarlierVehicleEntries(key: string)
    requires key in VehicleFormKeys
    requires key !in OtherFormKeys
    requires key !in CategoryFormKeys
    requires key !in PropertyFormKeys
    requires key != "vehicle_snowmobile" && key != "vehicle_boat" && key != "vehicle_rv" && key != "vehicle_vehicle_protection"
    ensures key in ClaimFieldsConfig && ClaimFieldsConfig[key] != [] && WellFormedForm(ClaimFieldsConfig[key])
  {
    if key == "vehicle_roadside" {
      VehicleRoadsideWellFormed();
    } else if key == "vehicle_atv" {
      VehicleAtvWellFormed();
    } else if key == "vehicle_motorcycle" {
      VehicleMotorcycleWellFormed();
    } else if key == "vehicle_auto" {
      VehicleAutoWellFormed();
    }
  }

  // ----- the lookup -----

  /** The table key of a claim type: `${category}_${subcategory}` when the subcategory is truthy,
      the category alone otherwise. */
  function ClaimKey(category: string, subcategory: Option<string>): string
  {
    if Truthy(subcategory) then category + "_" + subcategory.value else category
  }

  /** `getClaimFields`: the form listed under the key, or no fields when the key is absent. */
  function GetClaimFields(category: string, subcategory: Option<string>): (r: seq<FieldConfig>)
    ensures ClaimKey(category, subcategory) in ClaimFieldsConfig ==> r == ClaimFieldsConfig[ClaimKey(category, subcategory)]
    ensures ClaimKey(category, subcategory) !in ClaimFieldsConfig ==> r == []
    ensures WellFormedForm(r)
  {
    TableWellFormed();
    var key := ClaimKey(category, subcategory);
    if key in ClaimFieldsConfig then ClaimFieldsConfig[key] else []
  }

  // ----- agreement with the backend's claim types -----

  /** A claim type whose key is in the table finds that key's form, which has fields. */
  lemma KnownKeyFindsForm(category: string, subcategory: Option<string>)
    requires ClaimKey(category, subcategory) in FormKeys
    ensures GetClaimFields(category, subcategory) == ClaimFieldsConfig[ClaimKey(category, subcategory)]
    ensures GetClaimFields(category, subcategory) != []
  {
    TableKeys();
    TableWellFormed();
  }

  /** A claim type whose key is not in the table finds no fields. */
  lemma UnknownKeyFindsNothing(category: string, subcategory: Option<string>)
    requires ClaimKey(category, subcategory) !in FormKeys
    ensures GetClaimFields(category, subcategory) == []
  {
    TableKeys();
  }

  /** The backend's ATV subcategory `atv_off_road` has no form: the table lists it as
      `vehicle_atv`. */
  lemma AtvOffRoadHasNoFields()
    ensures GetClaimFields("vehicle", Some("atv_off_road")) == []
  {
    TwentyCharacterKeyUnknown(ClaimKey("vehicle", Some("atv_off_road")));
    UnknownKeyFindsNothing("vehicle", Some("atv_off_road"));
  }

  /** A key longer than every key of the table is not one of them. */
  lemma LongKeyUnknown(key: string)
    requires |key| > 26
    ensures key !in FormKeys
  {
    KeyLengths();
  }

  /** A key of 20 characters that does not start with `p` is not one of the table's. */
  lemma TwentyCharacterKeyUnknown(key: string)
    requires |key| == 20 && key[0] != 'p'
    ensures key !in FormKeys
  {
    KeyLengths();
  }

  /** The backend's umbrella subcategory `personal_umbrella_policy` has no form either: the table
      lists it as `other_umbrella`. */
  lemma UmbrellaPolicyHasNoFields()
    ensures GetClaimFields("other", Some("personal_umbrella_policy")) == []
  {
    LongKeyUnknown(ClaimKey("other", Some("personal_umbrella_policy")));
    UnknownKeyFindsNothing("other", Some("personal_umbrella_policy"));
  }

  /** No key of the table is longer than 26 characters, and the only one of 20 is
      `property_mobile_home`. */
  lemma KeyLengths()
    ensures forall key :: key in FormKeys ==> |key| <= 26 && (|key| == 20 ==> key[0] == 'p')
  {
    VehicleKeyLengths();
    PropertyKeyLengths();
    CategoryKeyLengths();
    OtherKeyLengths();
  }

  lemma VehicleKeyLengths()
    ensures forall key :: key in VehicleFormKeys ==> |key| <= 26 && (|key| == 20 ==> key[0] == 'p')
  {
  }

  lemma PropertyKeyLengths()
    ensures forall key :: key in PropertyFormKeys ==> |key| <= 26 && (|key| == 20 ==> key[0] == 'p')
  {
  }

  lemma CategoryKeyLengths()
    ensures forall key :: key in CategoryFormKeys ==> |key| <= 26 && (|key| == 20 ==> key[0] == 'p')
  {
  }

  lemma OtherKeyLengths()
    ensures forall key :: key in OtherFormKeys ==> |key| <= 26 && (|key| == 20 ==> key[0] == 'p')
  {
  }

  /** Of the category and subcategory pairs the backend accepts, exactly those two find no form;
      every other one finds a non-empty list of fields. */
  lemma BackendPairsWithoutForm(category: string, subcategory: Option<string>)
    requires ClaimService.ValidPair(category, subcategory)
    ensures GetClaimFields(category, subcategory) == [] <==>
      (category == "vehicle" && subcategory == Some("atv_off_road"))
      || (category == "other" && subcategory == Some("personal_umbrella_policy"))
  {
    if category == "vehicle" && subcategory == Some("atv_off_road") {
      AtvOffRoadHasNoFields();
    } else if category == "other" && subcategory == Some("personal_umbrella_policy") {
      UmbrellaPolicyHasNoFields();
    } else {
      BackendKeysKnown(category, subcategory);
      KnownKeyFindsForm(category, subcategory);
    }
  }

  /** Every other pair the backend accepts has its key in the table. */
  lemma BackendKeysKnown(category: string, subcategory: Option<string>)
    requires ClaimService.ValidPair(category, subcategory)
    requires !(category == "vehicle" && subcategory == Some("atv_off_road"))
    requires !(category == "other" && subcategory == Some("personal_umbrella_policy"))
    ensures ClaimKey(category, subcategory) in FormKeys
  {
    if category in {"life", "business", "identity_protection"} {
      assert ClaimKey(category, subcategory) == category;
    } else if category == "vehicle" {
      VehicleSubcategoryKeys(subcategory.value);
    } else if category == "property" {
      PropertySubcategoryKeys(subcategory.value);
    } else {
      OtherSubcategoryKeys(subcategory.value);
    }
  }

  /** Every vehicle subcategory of the backend that has a form finds its key in the table. */
  lemma VehicleSubcategoryKeys(sub: string)
    requires ClaimService.ValidPair("vehicle", Some(sub)) && sub != "atv_off_road"
    ensures ClaimKey("vehicle", Some(sub)) in VehicleFormKeys
  {
    if sub == "auto" {
      KeyOfVehicleAuto(sub);
    } else if sub == "motorcycle" {
      KeyOfVehicleMotorcycle(sub);
    } else if sub == "roadside" {
      KeyOfVehicleRoadside(sub);
    } else if sub == "snowmobile" {
      KeyOfVehicleSnowmobile(sub);
    } else if sub == "boat" {
      KeyOfVehicleBoat(sub);
    } else if sub == "rv" {
      KeyOfVehicleRv(sub);
    } else if sub == "vehicle_protection" {
      KeyOfVehicleVehicleProtection(sub);
    }
  }

  // The key of each vehicle subcategory, one comparison of strings per lemma.

  lemma KeyOfVehicleAuto(sub: string)
    requires sub == "auto"
    ensures ClaimKey("vehicle", Some(sub)) == "vehicle_auto"
  {
  }

  lemma KeyOfVehicleMotorcycle(sub: string)
    requires sub == "motorcycle"
    ensures ClaimKey("vehicle", Some(sub)) == "vehicle_motorcycle"
  {
  }

  lemma KeyOfVehicleRoadside(sub: string)
    requires sub == "roadside"
    ensures ClaimKey("vehicle", Some(sub)) == "vehicle_roadside"
  {
  }

  lemma KeyOfVehicleSnowmobile(sub: string)
    requires sub == "snowmobile"
    ensures ClaimKey("vehicle", Some(sub)) == "vehicle_snowmobile"
  {
  }

  lemma KeyOfVehicleBoat(sub: string)
    requires sub == "boat"
    ensures ClaimKey("vehicle", Some(sub)) == "vehicle_boat"
  {
  }

  lemma KeyOfVehicleRv(sub: string)
    requires sub == "rv"
    ensures ClaimKey("vehicle", Some(sub)) == "vehicle_rv"
  {
  }

  lemma KeyOfVehicleVehicleProtection(sub: string)
    requires sub == "vehicle_protection"
    ensures ClaimKey("vehicle", Some(sub)) == "vehicle_vehicle_protection"
  {
  }

  /** Every property subcategory of the backend that has a form finds its key in the table. */
  lemma PropertySubcategoryKeys(sub: string)
    requires ClaimService.ValidPair("property", Some(sub))
    ensures ClaimKey("property", Some(sub)) in PropertyFormKeys
  {
    if sub == "homeowners" {
      KeyOfPropertyHomeowners(sub);
    } else if sub == "renters" {
      KeyOfPropertyRenters(sub);
    } else if sub == "condo" {
      KeyOfPropertyCondo(sub);
    } else if sub == "landlord" {
      KeyOfPropertyLandlord(sub);
    } else if sub == "mobile_home" {
      KeyOfPropertyMobileHome(sub);
    }
  }

  // The key of each property subcategory, one comparison of strings per lemma.

  lemma KeyOfPropertyHomeowners(sub: string)
    requires sub == "homeowners"
    ensures ClaimKey("property", Some(sub)) == "property_homeowners"
  {
  }

  lemma KeyOfPropertyRenters(sub: string)
    requires sub == "renters"
    ensures ClaimKey("property", Some(sub)) == "property_renters"
  {
  }

  lemma KeyOfPropertyCondo(sub: string)
    requires sub == "condo"
    ensures ClaimKey("property", Some(sub)) == "property_condo"
  {
  }

  lemma KeyOfPropertyLandlord(sub: string)
    requires sub == "landlord"
    ensures ClaimKey("property", Some(sub)) == "property_landlord"
  {
  }

  lemma KeyOfPropertyMobileHome(sub: string)
    requires sub == "mobile_home"
    ensures ClaimKey("property", Some(sub)) == "property_mobile_home"
  {
  }

  /** Every other subcategory of the backend that has a form finds its key in the table. */
  lemma OtherSubcategoryKeys(sub: string)
    requires ClaimService.ValidPair("other", Some(sub)) && sub != "personal_umbrella_policy"
    ensures ClaimKey("other", Some(sub)) in OtherFormKeys
  {
    if sub == "individual_health" {
      KeyOfOtherIndividualHealth(sub);
    } else if sub == "pet" {
      KeyOfOtherPet(sub);
    } else if sub == "event" {
      KeyOfOtherEvent(sub);
    } else if sub == "travel" {
      KeyOfOtherTravel(sub);
    } else if sub == "jewelry" {
      KeyOfOtherJewelry(sub);
    } else if sub == "collectibles" {
      KeyOfOtherCollectibles(sub);
    }
  }

  // The key of each other subcategory, one comparison of strings per lemma.

  lemma KeyOfOtherIndividualHealth(sub: string)
    requires sub == "individual_health"
    ensures ClaimKey("other", Some(sub)) == "other_individual_health"
  {
  }

  lemma KeyOfOtherPet(sub: string)
    requires sub == "pet"
    ensures ClaimKey("other", Some(sub)) == "other_pet"
  {
  }

  lemma KeyOfOtherEvent(sub: string)
    requires sub == "event"
    ensures ClaimKey("other", Some(sub)) == "other_event"
  {
  }

  lemma KeyOfOtherTravel(sub: string)
    requires sub == "travel"
    ensures ClaimKey("other", Some(sub)) == "other_travel"
  {
  }

  lemma KeyOfOtherJewelry(sub: string)
    requires sub == "jewelry"
    ensures ClaimKey("other", Some(sub)) == "other_jewelry"
  {
  }

  lemma KeyOfOtherCollectibles(sub: string)
    requires sub == "collectibles"
    ensures ClaimKey("other", Some(sub)) == "other_collectibles"
  {
  }
}
