/** The seed collections the store starts from and the lookups over a
    collection. The lookups take the collection as a parameter: the
    module-level helpers apply them to the seed, the store to its own copy. */
module Data {
  import opened Wrappers
  import opened Seqs
  import opened JsStrings
  import opened Records

  const Patient1: Patient :=
    Patient("1", PatientInfo(
      name := "Sarah Johnson", age := Int(32), phone := "+1 (555) " + "123-4567",
      email := "sarah.johnson@email.com", lastVisit := "2024-01-15",
      condition := "Diabetes Type 2", status := PatientStatus.Active,
      riskLevel := RiskLevel.Medium, address := "123 Oak Street, " + "Springfield, IL " + "62701",
      emergencyContact := EmergencyContact("John Johnson", "+1 (555) " + "123-4568", "Spouse"),
      insurance := "Blue Cross Blue " + "Shield", primaryCarePhysician := "Dr. Amanda " + "Rodriguez",
      allergies := ["Penicillin", "Sulfa drugs"],
      medications := ["Metformin 500mg", "Glipizide 5mg"],
      bloodType := "O+", height := "5'6\"", weight := "165 lbs",
      bmi := 26.6, lastLabResults := "2024-01-10 - " + "A1C: 7.2%",
      nextAppointment := "2024-01-25 2:00 " + "PM",
      notes := "Patient shows " + "good compliance " + "with " + "medication. " +
        "Blood sugar " + "levels " + "improving."))

  const Patient2: Patient :=
    Patient("2", PatientInfo(
      name := "Michael Chen", age := Int(45), phone := "+1 (555) " + "234-5678",
      email := "michael.chen@email.com", lastVisit := "2024-01-10",
      condition := "Hypertension", status := PatientStatus.Active,
      riskLevel := RiskLevel.High, address := "456 Maple " + "Avenue, " + "Chicago, IL " + "60601",
      emergencyContact := EmergencyContact("Lisa Chen", "+1 (555) " + "234-5679", "Sister"),
      insurance := "Aetna", primaryCarePhysician := "Dr. James Wilson",
      allergies := ["Shellfish", "Latex"],
      medications := ["Lisinopril 10mg", "Amlodipine 5mg"],
      bloodType := "A+", height := "5'10\"", weight := "185 lbs",
      bmi := 26.5, lastLabResults := "2024-01-08 - " + "BP: 145/95 mmHg",
      nextAppointment := "2024-01-20 " + "10:00 AM",
      notes := "Blood pressure " + "still elevated. " + "Consider " + "medication " +
        "adjustment."))

  const Patient3: Patient :=
    Patient("3", PatientInfo(
      name := "Emma Wilson", age := Int(28), phone := "+1 (555) " + "345-6789",
      email := "emma.wilson@email.com", lastVisit := "2024-01-08",
      condition := "Asthma", status := PatientStatus.Active,
      riskLevel := RiskLevel.Low, address := "789 Pine " + "Street, " + "Milwaukee, WI " + "53201",
      emergencyContact := EmergencyContact("Robert Wilson", "+1 (555) " + "345-6790", "Father"),
      insurance := "UnitedHealth", primaryCarePhysician := "Dr. Sarah Chen",
      allergies := ["Dust mites", "Pollen", "Pet dander"],
      medications := ["Albuterol " + "inhaler", "Fluticasone " + "220mcg"],
      bloodType := "B+", height := "5'4\"", weight := "125 lbs",
      bmi := 21.5, lastLabResults := "2024-01-05 - " + "Peak flow: 450 " + "L/min",
      nextAppointment := "2024-01-22 3:30 " + "PM",
      notes := "Asthma well " + "controlled. " + "Peak flow " + "measurements " +
        "stable."))

  const Patient4: Patient :=
    Patient("4", PatientInfo(
      name := "David Rodriguez", age := Int(38), phone := "+1 (555) " + "456-7890",
      email := "david.rodriguez@email.com", lastVisit := "2024-01-05",
      condition := "Heart Disease", status := PatientStatus.Inactive,
      riskLevel := RiskLevel.High, address := "321 Elm Street, " + "Detroit, MI " + "48201",
      emergencyContact := EmergencyContact("Maria Rodriguez", "+1 (555) " + "456-7891", "Wife"),
      insurance := "Cigna", primaryCarePhysician := "Dr. Michael " + "Johnson",
      allergies := ["Aspirin", "Ibuprofen"],
      medications := ["Metoprolol 25mg", "Atorvastatin " + "20mg"],
      bloodType := "AB+", height := "6'0\"", weight := "200 lbs",
      bmi := 27.1, lastLabResults := "2024-01-02 - " + "Cholesterol: " + "180 mg/dL",
      nextAppointment := "2024-01-28 " + "11:00 AM",
      notes := "Post-MI " + "patient. " + "Cardiac " + "rehabilitation " +
        "recommended."))

  const Patient5: Patient :=
    Patient("5", PatientInfo(
      name := "Lisa Thompson", age := Int(55), phone := "+1 (555) " + "567-8901",
      email := "lisa.thompson@email.com", lastVisit := "2024-01-12",
      condition := "Arthritis", status := PatientStatus.Active,
      riskLevel := RiskLevel.Medium, address := "654 Birch Lane, " + "Cleveland, OH " + "44101",
      emergencyContact := EmergencyContact("William Thompson", "+1 (555) " + "567-8902", "Husband"),
      insurance := "Humana", primaryCarePhysician := "Dr. Emily Davis",
      allergies := ["Codeine", "Morphine"],
      medications := ["Celecoxib 200mg", "Acetaminophen " + "500mg"],
      bloodType := "O-", height := "5'7\"", weight := "150 lbs",
      bmi := 23.5, lastLabResults := "2024-01-09 - " + "ESR: 28 mm/hr",
      nextAppointment := "2024-01-26 1:00 " + "PM",
      notes := "Rheumatoid " + "arthritis. " + "Joint mobility " + "improving with " +
        "treatment."))

  const Patient6: Patient :=
    Patient("6", PatientInfo(
      name := "Robert Kim", age := Int(41), phone := "+1 (555) " + "678-9012",
      email := "robert.kim@email.com", lastVisit := "2024-01-14",
      condition := "Depression", status := PatientStatus.Active,
      riskLevel := RiskLevel.Medium, address := "987 Cedar Road, " + "Minneapolis, MN " + "55401",
      emergencyContact := EmergencyContact("Jennifer Kim", "+1 (555) " + "678-9013", "Wife"),
      insurance := "Kaiser " + "Permanente", primaryCarePhysician := "Dr. Amanda " + "Rodriguez",
      allergies := ["None known"],
      medications := ["Sertraline 100mg", "Bupropion 150mg"],
      bloodType := "A-", height := "5'9\"", weight := "170 lbs",
      bmi := 25.1, lastLabResults := "2024-01-12 - " + "PHQ-9 Score: 8",
      nextAppointment := "2024-01-23 4:00 " + "PM",
      notes := "Depression " + "symptoms " + "improving. " + "Continue " +
        "current " + "medication " + "regimen."))

  const Patient7: Patient :=
    Patient("7", PatientInfo(
      name := "Maria Garcia", age := Int(29), phone := "+1 (555) " + "789-0123",
      email := "maria.garcia@email.com", lastVisit := "2024-01-11",
      condition := "Pregnancy", status := PatientStatus.Active,
      riskLevel := RiskLevel.Low, address := "147 Willow Way, " + "Denver, CO 80201",
      emergencyContact := EmergencyContact("Carlos Garcia", "+1 (555) " + "789-0124", "Husband"),
      insurance := "Anthem", primaryCarePhysician := "Dr. Sarah Chen",
      allergies := ["None known"],
      medications := ["Prenatal " + "vitamins", "Folic acid"],
      bloodType := "B-", height := "5'5\"", weight := "135 lbs",
      bmi := 22.5, lastLabResults := "2024-01-08 - " + "Ultrasound: " + "Normal " + "development",
      nextAppointment := "2024-01-24 2:30 " + "PM",
      notes := "First " + "pregnancy, 24 " + "weeks. All " + "prenatal " +
        "screenings " + "normal."))

  const Patient8: Patient :=
    Patient("8", PatientInfo(
      name := "James Anderson", age := Int(67), phone := "+1 (555) " + "890-1234",
      email := "james.anderson@email.com", lastVisit := "2024-01-09",
      condition := "Prostate Cancer", status := PatientStatus.Active,
      riskLevel := RiskLevel.Critical, address := "258 Spruce " + "Street, " + "Seattle, WA " + "98101",
      emergencyContact := EmergencyContact("Patricia " + "Anderson", "+1 (555) " + "890-1235", "Wife"),
      insurance := "Medicare + AARP", primaryCarePhysician := "Dr. Michael " + "Johnson",
      allergies := ["None known"],
      medications := ["Bicalutamide " + "50mg", "Leuprolide " + "3.75mg"],
      bloodType := "O+", height := "5'11\"", weight := "175 lbs",
      bmi := 24.4, lastLabResults := "2024-01-06 - " + "PSA: 4.2 ng/mL",
      nextAppointment := "2024-01-21 9:00 " + "AM",
      notes := "Prostate cancer " + "in remission. " + "Continue " + "monitoring PSA " +
        "levels."))

  const Patients: seq<Patient> :=
    [Patient1, Patient2, Patient3, Patient4, Patient5, Patient6, Patient7, Patient8]

  const Doctor1: Doctor :=
    Doctor("1", DoctorInfo(
      name := "Dr. Amanda " + "Rodriguez", specialty := "Cardiology", experience := "15 years",
      phone := "+1 (555) " + "123-4567", email := "amanda.rodriguez@carebridge.com", location := "Main Building, " + "Floor 3",
      rating := 4.9, patients := 127, nextAvailable := "2024-01-18 2:00 " + "PM",
      status := DoctorStatus.Available, licenseNumber := "MD123456",
      education := ["Harvard Medical " + "School", "Johns Hopkins " + "Residency"],
      certifications := ["Board Certified " + "Cardiologist", "FACC"],
      languages := ["English", "Spanish", "Portuguese"],
      availability := Availability(["9:00 AM", "5:00 PM"], ["9:00 AM", "5:00 PM"], ["9:00 AM", "5:00 PM"],
        ["9:00 AM", "5:00 PM"], ["9:00 AM", "3:00 PM"], ["9:00 AM", "12:00 PM"], ["Closed"]),
      specialties := ["Interventional " + "Cardiology", "Heart Failure", "Preventive " + "Cardiology"],
      hospitalAffiliations := ["CareBridge " + "Medical Center", "City General " + "Hospital"],
      researchInterests := ["Heart failure " + "management", "Preventive " + "cardiology"],
      publications := 23,
      awards := ["Best " + "Cardiologist " + "2023", "Excellence in " + "Patient Care"]))

  const Doctor2: Doctor :=
    Doctor("2", DoctorInfo(
      name := "Dr. James Wilson", specialty := "Neurology", experience := "12 years",
      phone := "+1 (555) " + "234-5678", email := "james.wilson@carebridge.com", location := "North Wing, " + "Floor 2",
      rating := 4.8, patients := 89, nextAvailable := "2024-01-19 " + "10:00 AM",
      status := DoctorStatus.Busy, licenseNumber := "MD234567",
      education := ["Stanford " + "Medical School", "UCLA Residency"],
      certifications := ["Board Certified " + "Neurologist", "FANA"],
      languages := ["English", "French"],
      availability := Availability(["8:00 AM", "6:00 PM"], ["8:00 AM", "6:00 PM"], ["8:00 AM", "6:00 PM"],
        ["8:00 AM", "6:00 PM"], ["8:00 AM", "4:00 PM"], ["Closed"], ["Closed"]),
      specialties := ["Movement " + "Disorders", "Epilepsy", "Multiple " + "Sclerosis"],
      hospitalAffiliations := ["CareBridge " + "Medical Center", "University " + "Hospital"],
      researchInterests := ["Parkinson's " + "disease", "Epilepsy " + "treatment"],
      publications := 18,
      awards := ["Neurology " + "Research Award", "Patient Choice " + "Award"]))

  const Doctor3: Doctor :=
    Doctor("3", DoctorInfo(
      name := "Dr. Sarah Chen", specialty := "Pediatrics", experience := "8 years",
      phone := "+1 (555) " + "345-6789", email := "sarah.chen@carebridge.com", location := "Children's " + "Wing, Floor 1",
      rating := 4.9, patients := 156, nextAvailable := "2024-01-18 4:30 " + "PM",
      status := DoctorStatus.Available, licenseNumber := "MD345678",
      education := ["UCSF Medical " + "School", "Children's " + "Hospital " + "Residency"],
      certifications := ["Board Certified " + "Pediatrician", "FAAP"],
      languages := ["English", "Mandarin", "Cantonese"],
      availability := Availability(["8:30 AM", "6:30 PM"], ["8:30 AM", "6:30 PM"], ["8:30 AM", "6:30 PM"],
        ["8:30 AM", "6:30 PM"], ["8:30 AM", "5:00 PM"], ["9:00 AM", "2:00 PM"], ["Closed"]),
      specialties := ["General " + "Pediatrics", "Adolescent " + "Medicine", "Developmental " + "Pediatrics"],
      hospitalAffiliations := ["CareBridge " + "Medical Center", "Children's " + "Hospital"],
      researchInterests := ["Childhood " + "obesity", "Vaccine safety"],
      publications := 12,
      awards := ["Pediatric " + "Excellence Award", "Community " + "Service Award"]))

  const Doctor4: Doctor :=
    Doctor("4", DoctorInfo(
      name := "Dr. Michael " + "Johnson", specialty := "Orthopedic " + "Surgery", experience := "20 years",
      phone := "+1 (555) " + "456-7890", email := "michael.johnson@carebridge.com", location := "Surgery Center, " + "Floor 4",
      rating := 4.7, patients := 98, nextAvailable := "2024-01-22 9:00 " + "AM",
      status := DoctorStatus.Surgery, licenseNumber := "MD456789",
      education := ["Yale Medical " + "School", "Mayo Clinic " + "Residency"],
      certifications := ["Board Certified " + "Orthopedic " + "Surgeon", "FACS"],
      languages := ["English", "German"],
      availability := Availability(["7:00 AM", "7:00 PM"], ["7:00 AM", "7:00 PM"], ["7:00 AM", "7:00 PM"],
        ["7:00 AM", "7:00 PM"], ["7:00 AM", "5:00 PM"], ["8:00 AM", "12:00 PM"], ["Closed"]),
      specialties := ["Joint " + "Replacement", "Sports Medicine", "Trauma Surgery"],
      hospitalAffiliations := ["CareBridge " + "Medical Center", "Sports Medicine " + "Institute"],
      researchInterests := ["Minimally " + "invasive surgery", "Joint " + "preservation"],
      publications := 31,
      awards := ["Surgical " + "Excellence Award", "Sports Medicine " + "Pioneer"]))

  const Doctor5: Doctor :=
    Doctor("5", DoctorInfo(
      name := "Dr. Emily Davis", specialty := "Emergency " + "Medicine", experience := "10 years",
      phone := "+1 (555) " + "567-8901", email := "emily.davis@carebridge.com", location := "Emergency " + "Department",
      rating := 4.8, patients := 203, nextAvailable := "2024-01-18 6:00 " + "PM",
      status := DoctorStatus.OnCall, licenseNumber := "MD567890",
      education := ["Columbia " + "Medical School", "NYU Residency"],
      certifications := ["Board Certified " + "Emergency " + "Physician", "FACEP"],
      languages := ["English", "Spanish"],
      availability := Availability(["24/7"], ["24/7"], ["24/7"],
        ["24/7"], ["24/7"], ["24/7"], ["24/7"]),
      specialties := ["Trauma", "Critical Care", "Toxicology"],
      hospitalAffiliations := ["CareBridge " + "Medical Center", "Trauma Center"],
      researchInterests := ["Emergency " + "response " + "protocols", "Critical care " + "outcomes"],
      publications := 19,
      awards := ["Emergency " + "Medicine " + "Excellence", "Trauma Care " + "Award"]))

  const Doctor6: Doctor :=
    Doctor("6", DoctorInfo(
      name := "Dr. Robert " + "Martinez", specialty := "Psychiatry", experience := "14 years",
      phone := "+1 (555) " + "678-9012", email := "robert.martinez@carebridge.com", location := "Mental Health " + "Wing, Floor 2",
      rating := 4.9, patients := 112, nextAvailable := "2024-01-19 1:00 " + "PM",
      status := DoctorStatus.Available, licenseNumber := "MD678901",
      education := ["UCLA Medical " + "School", "Stanford " + "Residency"],
      certifications := ["Board Certified " + "Psychiatrist", "FAPA"],
      languages := ["English", "Spanish", "Italian"],
      availability := Availability(["9:00 AM", "7:00 PM"], ["9:00 AM", "7:00 PM"], ["9:00 AM", "7:00 PM"],
        ["9:00 AM", "7:00 PM"], ["9:00 AM", "5:00 PM"], ["10:00 AM", "3:00 PM"], ["Closed"]),
      specialties := ["Depression", "Anxiety " + "Disorders", "Bipolar Disorder"],
      hospitalAffiliations := ["CareBridge " + "Medical Center", "Mental Health " + "Institute"],
      researchInterests := ["Treatment-resistant " + "depression", "Anxiety " + "management"],
      publications := 27,
      awards := ["Psychiatry " + "Excellence Award", "Mental Health " + "Advocate"]))

  const Doctor7: Doctor :=
    Doctor("7", DoctorInfo(
      name := "Dr. Jennifer Lee", specialty := "Oncology", experience := "16 years",
      phone := "+1 (555) " + "789-0123", email := "jennifer.lee@carebridge.com", location := "Cancer Center, " + "Floor 5",
      rating := 4.9, patients := 78, nextAvailable := "2024-01-20 " + "11:00 AM",
      status := DoctorStatus.Available, licenseNumber := "MD789012",
      education := ["Johns Hopkins " + "Medical School", "MD Anderson " + "Residency"],
      certifications := ["Board Certified " + "Oncologist", "FACP"],
      languages := ["English", "Korean", "Japanese"],
      availability := Availability(["8:00 AM", "6:00 PM"], ["8:00 AM", "6:00 PM"], ["8:00 AM", "6:00 PM"],
        ["8:00 AM", "6:00 PM"], ["8:00 AM", "4:00 PM"], ["Closed"], ["Closed"]),
      specialties := ["Breast Cancer", "Lung Cancer", "Hematologic " + "Malignancies"],
      hospitalAffiliations := ["CareBridge " + "Medical Center", "Cancer Research " + "Institute"],
      researchInterests := ["Immunotherapy", "Precision " + "medicine"],
      publications := 34,
      awards := ["Oncology " + "Research Award", "Patient Care " + "Excellence"]))

  const Doctor8: Doctor :=
    Doctor("8", DoctorInfo(
      name := "Dr. Thomas Brown", specialty := "Dermatology", experience := "11 years",
      phone := "+1 (555) " + "890-1234", email := "thomas.brown@carebridge.com", location := "Dermatology " + "Clinic, Floor 1",
      rating := 4.8, patients := 134, nextAvailable := "2024-01-18 3:00 " + "PM",
      status := DoctorStatus.Available, licenseNumber := "MD890123",
      education := ["Northwestern " + "Medical School", "UCSF Residency"],
      certifications := ["Board Certified " + "Dermatologist", "FAAD"],
      languages := ["English", "French"],
      availability := Availability(["8:30 AM", "5:30 PM"], ["8:30 AM", "5:30 PM"], ["8:30 AM", "5:30 PM"],
        ["8:30 AM", "5:30 PM"], ["8:30 AM", "4:30 PM"], ["9:00 AM", "2:00 PM"], ["Closed"]),
      specialties := ["Medical " + "Dermatology", "Surgical " + "Dermatology", "Cosmetic " + "Dermatology"],
      hospitalAffiliations := ["CareBridge " + "Medical Center", "Dermatology " + "Institute"],
      researchInterests := ["Skin cancer " + "prevention", "Psoriasis " + "treatment"],
      publications := 21,
      awards := ["Dermatology " + "Excellence Award", "Skin Cancer " + "Prevention Award"]))

  const Doctors: seq<Doctor> :=
    [Doctor1, Doctor2, Doctor3, Doctor4, Doctor5, Doctor6, Doctor7, Doctor8]

  const Appointment1: Appointment :=
    Appointment("1", AppointmentInfo(
      patient := "Sarah Johnson", doctor := "Dr. Amanda " + "Rodriguez", time := "9:00 AM",
      date := 20240118, duration := "30 min", kind := AppointmentType.FollowUp,
      status := AppointmentStatus.Confirmed, reason := "Diabetes " + "follow-up and " + "medication " + "review",
      location := "Room 302, " + "Cardiology Wing",
      notes := "Patient reports " + "improved blood " + "sugar control. " + "Review A1C " +
        "results.",
      symptoms := ["Fatigue", "Increased thirst"], diagnosis := "Diabetes Type 2",
      treatment := "Metformin " + "adjustment", followUpDate := "2024-02-15",
      insurance := "Blue Cross Blue " + "Shield", cost := 150,
      paymentStatus := PaymentStatus.Paid))

  const Appointment2: Appointment :=
    Appointment("2", AppointmentInfo(
      patient := "Michael Chen", doctor := "Dr. James Wilson", time := "10:30 AM",
      date := 20240118, duration := "45 min", kind := AppointmentType.Consultation,
      status := AppointmentStatus.Confirmed, reason := "Neurological " + "consultation " + "for headaches",
      location := "Room 201, " + "Neurology Wing",
      notes := "Patient " + "experiencing " + "frequent " + "migraines. " +
        "Consider " + "imaging studies.",
      symptoms := ["Severe headaches", "Nausea", "Light " + "sensitivity"], diagnosis := "Migraine",
      treatment := "Sumatriptan " + "prescription", followUpDate := "2024-02-01",
      insurance := "Aetna", cost := 200,
      paymentStatus := PaymentStatus.Pending))

  const Appointment3: Appointment :=
    Appointment("3", AppointmentInfo(
      patient := "Emma Wilson", doctor := "Dr. Sarah Chen", time := "2:00 PM",
      date := 20240118, duration := "30 min", kind := AppointmentType.FollowUp,
      status := AppointmentStatus.Pending, reason := "Pediatric " + "asthma check-up",
      location := "Room 105, " + "Children's Wing",
      notes := "Monitor peak " + "flow " + "measurements " + "and adjust " +
        "inhaler dosage.",
      symptoms := ["Wheezing", "Shortness of " + "breath"], diagnosis := "Asthma",
      treatment := "Albuterol " + "inhaler " + "adjustment", followUpDate := "2024-02-08",
      insurance := "UnitedHealth", cost := 120,
      paymentStatus := PaymentStatus.Paid))

  const Appointment4: Appointment :=
    Appointment("4", AppointmentInfo(
      patient := "David Rodriguez", doctor := "Dr. Michael " + "Johnson", time := "3:30 PM",
      date := 20240118, duration := "60 min", kind := AppointmentType.FollowUp,
      status := AppointmentStatus.Confirmed, reason := "Post-surgery " + "follow-up",
      location := "Room 410, " + "Surgery Center",
      notes := "Post-MI " + "patient. Check " + "incision " + "healing and " +
        "cardiac " + "function.",
      symptoms := ["Chest discomfort", "Fatigue"], diagnosis := "Post-MI status",
      treatment := "Cardiac " + "rehabilitation", followUpDate := "2024-02-12",
      insurance := "Cigna", cost := 250,
      paymentStatus := PaymentStatus.Partial))

  const Appointment5: Appointment :=
    Appointment("5", AppointmentInfo(
      patient := "Lisa Thompson", doctor := "Dr. Emily Davis", time := "4:00 PM",
      date := 20240118, duration := "30 min", kind := AppointmentType.FollowUp,
      status := AppointmentStatus.Cancelled, reason := "Arthritis " + "treatment " + "follow-up",
      location := "Room 205, " + "Rheumatology",
      notes := "Patient " + "cancelled due " + "to " + "transportation " +
        "issues. " + "Reschedule " + "needed.",
      symptoms := ["Joint pain", "Stiffness"], diagnosis := "Rheumatoid " + "arthritis",
      treatment := "Celecoxib " + "continuation", followUpDate := "2024-01-25",
      insurance := "Humana", cost := 180,
      paymentStatus := PaymentStatus.Waived))

  const Appointment6: Appointment :=
    Appointment("6", AppointmentInfo(
      patient := "Robert Kim", doctor := "Dr. Amanda " + "Rodriguez", time := "9:00 AM",
      date := 20240119, duration := "30 min", kind := AppointmentType.FollowUp,
      status := AppointmentStatus.Confirmed, reason := "Routine " + "check-up and " + "depression " + "monitoring",
      location := "Room 302, " + "Cardiology Wing",
      notes := "Monitor " + "depression " + "symptoms and " + "medication " +
        "effectiveness.",
      symptoms := ["Depression", "Anxiety"], diagnosis := "Major " + "depressive " + "disorder",
      treatment := "Sertraline " + "continuation", followUpDate := "2024-02-20",
      insurance := "Kaiser " + "Permanente", cost := 150,
      paymentStatus := PaymentStatus.Paid))

  const Appointment7: Appointment :=
    Appointment("7", AppointmentInfo(
      patient := "Maria Garcia", doctor := "Dr. Sarah Chen", time := "11:00 AM",
      date := 20240119, duration := "45 min", kind := AppointmentType.FollowUp,
      status := AppointmentStatus.Pending, reason := "Prenatal " + "check-up",
      location := "Room 105, " + "Children's Wing",
      notes := "24-week " + "prenatal visit. " + "Check fetal " + "development and " +
        "maternal health.",
      symptoms := ["None"], diagnosis := "Normal pregnancy",
      treatment := "Prenatal care " + "continuation", followUpDate := "2024-02-02",
      insurance := "Anthem", cost := 200,
      paymentStatus := PaymentStatus.Pending))

  const Appointment8: Appointment :=
    Appointment("8", AppointmentInfo(
      patient := "James Anderson", doctor := "Dr. Michael " + "Johnson", time := "1:00 PM",
      date := 20240119, duration := "60 min", kind := AppointmentType.Consultation,
      status := AppointmentStatus.Confirmed, reason := "Prostate cancer " + "monitoring",
      location := "Room 410, " + "Surgery Center",
      notes := "Monitor PSA " + "levels and " + "discuss " + "treatment " +
        "options.",
      symptoms := ["None"], diagnosis := "Prostate cancer " + "in remission",
      treatment := "Active " + "surveillance", followUpDate := "2024-02-15",
      insurance := "Medicare + AARP", cost := 300,
      paymentStatus := PaymentStatus.Paid))

  const Appointment9: Appointment :=
    Appointment("9", AppointmentInfo(
      patient := "Sarah Johnson", doctor := "Dr. Thomas Brown", time := "2:30 PM",
      date := 20240119, duration := "30 min", kind := AppointmentType.Consultation,
      status := AppointmentStatus.Confirmed, reason := "Skin rash " + "evaluation",
      location := "Room 108, " + "Dermatology " + "Clinic",
      notes := "Patient reports " + "new skin rash " + "on arms and " + "legs.",
      symptoms := ["Skin rash", "Itching"], diagnosis := "Contact " + "dermatitis",
      treatment := "Topical " + "corticosteroid " + "cream", followUpDate := "2024-02-05",
      insurance := "Blue Cross Blue " + "Shield", cost := 175,
      paymentStatus := PaymentStatus.Paid))

  const Appointment10: Appointment :=
    Appointment("10", AppointmentInfo(
      patient := "Michael Chen", doctor := "Dr. Jennifer Lee", time := "3:00 PM",
      date := 20240119, duration := "45 min", kind := AppointmentType.Consultation,
      status := AppointmentStatus.Pending, reason := "Cancer " + "screening " + "consultation",
      location := "Room 501, " + "Cancer Center",
      notes := "Discuss " + "appropriate " + "cancer " + "screening based " +
        "on age and risk " + "factors.",
      symptoms := ["None"], diagnosis := "Preventive " + "consultation",
      treatment := "Screening " + "recommendations", followUpDate := "2024-02-10",
      insurance := "Aetna", cost := 250,
      paymentStatus := PaymentStatus.Pending))

  const Appointments: seq<Appointment> :=
    [Appointment1, Appointment2, Appointment3, Appointment4, Appointment5, Appointment6, Appointment7, Appointment8, Appointment9, Appointment10]

  const Message1: Message :=
    Message("1", MessageInfo(
      sender := "Sarah Johnson",
      content := "Hi Dr. " + "Rodriguez, I " + "hope you're " + "doing well. I " +
        "wanted to " + "follow up on " + "the care plan " + "you sent me " +
        "last week. I've " + "been following " + "the medication " + "schedule, but I " +
        "have a question " + "about the " + "evening dose " + "timing.",
      timestamp := 202401181030, isFromUser := false,
      attachments := [], priority := Priority.Normal,
      read := false, threadId := "1"))

  const Message2: Message :=
    Message("2", MessageInfo(
      sender := "Dr. Amanda " + "Rodriguez",
      content := "Hello Sarah! " + "I'm glad you " + "reached out. " + "How has the new " +
        "medication " + "schedule been " + "working for " + "you? I can " +
        "definitely help " + "adjust the " + "timing if " + "needed.",
      timestamp := 202401181045, isFromUser := true,
      attachments := [], priority := Priority.Normal,
      read := true, threadId := "1"))

  const Message3: Message :=
    Message("3", MessageInfo(
      sender := "Sarah Johnson",
      content := "The morning " + "dose has been " + "fine, but I'm " + "having trouble " +
        "remembering the " + "evening dose. " + "Is there a way " + "to adjust the " +
        "timing or set a " + "reminder?",
      timestamp := 202401181100, isFromUser := false,
      attachments := [], priority := Priority.Normal,
      read := false, threadId := "1"))

  const Message4: Message :=
    Message("4", MessageInfo(
      sender := "Dr. Amanda " + "Rodriguez",
      content := "Absolutely! Let " + "me adjust that " + "for you. I'll " + "send an updated " +
        "schedule that " + "might work " + "better with " + "your routine. " +
        "We can also set " + "up medication " + "reminders " + "through our " +
        "patient portal.",
      timestamp := 202401181115, isFromUser := true,
      attachments := [], priority := Priority.Normal,
      read := true, threadId := "1"))

  const Message5: Message :=
    Message("5", MessageInfo(
      sender := "Dr. James Wilson",
      content := "Patient Michael " + "Chen's lab " + "results are " + "ready for " +
        "review. His " + "glucose levels " + "show " + "improvement, " +
        "but blood " + "pressure is " + "still elevated. " + "Consider " +
        "medication " + "adjustment.",
      timestamp := 202401181400, isFromUser := false,
      attachments := ["lab_results.pdf"], priority := Priority.High,
      read := false, threadId := "2"))

  const Message6: Message :=
    Message("6", MessageInfo(
      sender := "Nurse Kelly",
      content := "Emma Wilson " + "completed her " + "morning vitals " + "check. Blood " +
        "pressure is " + "120/80, heart " + "rate 72 bpm. " + "All within " +
        "normal range.",
      timestamp := 202401180600, isFromUser := false,
      attachments := ["vitals_report.pdf"], priority := Priority.Normal,
      read := true, threadId := "3"))

  const Message7: Message :=
    Message("7", MessageInfo(
      sender := "David Rodriguez",
      content := "I'm " + "experiencing " + "some chest " + "discomfort " +
        "after the " + "exercise " + "routine you " + "prescribed. " +
        "Should I be " + "concerned?",
      timestamp := 202401171630, isFromUser := false,
      attachments := [], priority := Priority.Urgent,
      read := false, threadId := "4"))

  const Message8: Message :=
    Message("8", MessageInfo(
      sender := "Dr. Michael " + "Johnson",
      content := "David, please " + "call the office " + "immediately. " + "Chest " +
        "discomfort " + "after exercise " + "could be " + "concerning. We " +
        "need to " + "evaluate this " + "right away.",
      timestamp := 202401171645, isFromUser := true,
      attachments := [], priority := Priority.Urgent,
      read := true, threadId := "4"))

  const Message9: Message :=
    Message("9", MessageInfo(
      sender := "Lisa Thompson",
      content := "My arthritis " + "symptoms have " + "improved " + "significantly " +
        "with the new " + "treatment plan. " + "Thank you so " + "much!",
      timestamp := 202401161500, isFromUser := false,
      attachments := [], priority := Priority.Normal,
      read := true, threadId := "5"))

  const Message10: Message :=
    Message("10", MessageInfo(
      sender := "Dr. Emily Davis",
      content := "That's " + "wonderful news, " + "Lisa! I'm so " + "glad the " +
        "treatment is " + "working well " + "for you. Keep " + "up with the " +
        "exercises we " + "discussed.",
      timestamp := 202401161515, isFromUser := true,
      attachments := [], priority := Priority.Normal,
      read := true, threadId := "5"))

  const Messages: seq<Message> :=
    [Message1, Message2, Message3, Message4, Message5, Message6, Message7, Message8, Message9, Message10]
  function PatientId(p: Patient): string { p.id }
  function DoctorId(d: Doctor): string { d.id }
  function AppointmentId(a: Appointment): string { a.id }
  function MessageId(m: Message): string { m.id }
  function AppointmentDate(a: Appointment): int { a.info.date }
  function AppointmentDoctor(a: Appointment): string { a.info.doctor }
  function AppointmentPatient(a: Appointment): string { a.info.patient }
  function MessageThread(m: Message): string { m.info.threadId }

  predicate IsUnread(m: Message) { !m.info.read }
  predicate IsHighRisk(p: Patient) { p.info.riskLevel == RiskLevel.High || p.info.riskLevel == RiskLevel.Critical }
  predicate IsAvailable(d: Doctor) { d.info.status == DoctorStatus.Available }

  /** `getPatientById`: the first patient carrying `id`, or none. */
  function PatientById(ps: seq<Patient>, id: string): (r: Option<Patient>)
    ensures r.None? <==> forall i :: 0 <= i < |ps| ==> ps[i].id != id
    ensures r.Some? ==> exists i :: 0 <= i < |ps| && ps[i] == r.value && r.value.id == id &&
                                   forall j :: 0 <= j < i ==> ps[j].id != id
  {
    Find(ps, (p: Patient) => p.id == id)
  }

  /** `getDoctorById`: the first doctor carrying `id`, or none. */
  function DoctorById(ds: seq<Doctor>, id: string): (r: Option<Doctor>)
    ensures r.None? <==> forall i :: 0 <= i < |ds| ==> ds[i].id != id
    ensures r.Some? ==> exists i :: 0 <= i < |ds| && ds[i] == r.value && r.value.id == id &&
                                   forall j :: 0 <= j < i ==> ds[j].id != id
  {
    Find(ds, (d: Doctor) => d.id == id)
  }

  /** `getAppointmentsByDate`: the appointments on day `date`, in order. */
  function AppointmentsOn(appts: seq<Appointment>, date: int): (r: seq<Appointment>)
    ensures forall i :: 0 <= i < |r| ==> r[i] in appts && r[i].info.date == date
    ensures forall i :: 0 <= i < |appts| ==> (appts[i] in r <==> appts[i].info.date == date)
  {
    WithKey(appts, AppointmentDate, date)
  }

  /** `getAppointmentsByDoctor`: compares the appointment's `doctor` text, which
      holds a doctor's name, with the argument. */
  function AppointmentsWithDoctor(appts: seq<Appointment>, doctor: string): (r: seq<Appointment>)
    ensures forall i :: 0 <= i < |r| ==> r[i] in appts && r[i].info.doctor == doctor
    ensures forall i :: 0 <= i < |appts| ==> (appts[i] in r <==> appts[i].info.doctor == doctor)
  {
    WithKey(appts, AppointmentDoctor, doctor)
  }

  /** `getAppointmentsByPatient`: compares the appointment's `patient` text,
      which holds a patient's name, with the argument. */
  function AppointmentsWithPatient(appts: seq<Appointment>, patient: string): (r: seq<Appointment>)
    ensures forall i :: 0 <= i < |r| ==> r[i] in appts && r[i].info.patient == patient
    ensures forall i :: 0 <= i < |appts| ==> (appts[i] in r <==> appts[i].info.patient == patient)
  {
    WithKey(appts, AppointmentPatient, patient)
  }

  /** `getMessagesByThread`: the messages of one thread, in order. */
  function MessagesInThread(ms: seq<Message>, threadId: string): (r: seq<Message>)
    ensures forall i :: 0 <= i < |r| ==> r[i] in ms && r[i].info.threadId == threadId
    ensures forall i :: 0 <= i < |ms| ==> (ms[i] in r <==> ms[i].info.threadId == threadId)
  {
    WithKey(ms, MessageThread, threadId)
  }

  /** `getUnreadMessageCount`. */
  function UnreadCount(ms: seq<Message>): (n: nat)
    ensures n <= |ms|
    ensures n == 0 <==> forall i :: 0 <= i < |ms| ==> ms[i].info.read
  {
    var r := Filter(ms, IsUnread);
    assert r != [] ==> r[0] in ms && IsUnread(r[0]);
    |r|
  }

  /** `getHighRiskPatients`: risk level high or critical, in order. */
  function HighRiskPatients(ps: seq<Patient>): (r: seq<Patient>)
    ensures forall i :: 0 <= i < |r| ==> r[i] in ps && r[i].info.riskLevel in {RiskLevel.High, RiskLevel.Critical}
    ensures forall i :: 0 <= i < |ps| ==> (ps[i] in r <==> IsHighRisk(ps[i]))
  {
    Filter(ps, IsHighRisk)
  }

  /** `getAvailableDoctors`: status available, in order. */
  function AvailableDoctors(ds: seq<Doctor>): (r: seq<Doctor>)
    ensures forall i :: 0 <= i < |r| ==> r[i] in ds && r[i].info.status == DoctorStatus.Available
    ensures forall i :: 0 <= i < |ds| ==> (ds[i] in r <==> IsAvailable(ds[i]))
  {
    Filter(ds, IsAvailable)
  }

  /** Ids are unique within each seed collection. */
  lemma SeedPatientIdsUnique()
    ensures NoDuplicates(Map(Patients, PatientId))
  {
    assert Map(Patients, PatientId) == ["1", "2", "3", "4", "5", "6", "7", "8"];
  }

  lemma SeedDoctorIdsUnique()
    ensures NoDuplicates(Map(Doctors, DoctorId))
  {
    assert Map(Doctors, DoctorId) == ["1", "2", "3", "4", "5", "6", "7", "8"];
  }

  lemma SeedAppointmentIdsUnique()
    ensures NoDuplicates(Map(Appointments, AppointmentId))
  {
    assert Map(Appointments, AppointmentId) == ["1", "2", "3", "4", "5", "6", "7", "8", "9", "10"];
  }

  lemma SeedMessageIdsUnique()
    ensures NoDuplicates(Map(Messages, MessageId))
  {
    assert Map(Messages, MessageId) == ["1", "2", "3", "4", "5", "6", "7", "8", "9", "10"];
  }

  /** Four seed messages are unread: 1, 3, 5 and 7. */
  lemma SeedUnreadCount()
    ensures Filter(Messages, IsUnread) == [Message1, Message3, Message5, Message7]
    ensures UnreadCount(Messages) == 4
  {
    UnreadPositions();
    FilterIsPicked(Messages, IsUnread, [0, 2, 4, 6], [Message1, Message3, Message5, Message7]);
  }

  lemma UnreadPositions()
    ensures HoldsExactlyAt(Messages, IsUnread, [0, 2, 4, 6])
    ensures ElementsAt(Messages, [0, 2, 4, 6], [Message1, Message3, Message5, Message7])
  {
  }

  /** The high-risk seed patients are 2, 4 and 8. */
  lemma SeedHighRiskPatients()
    ensures HighRiskPatients(Patients) == [Patient2, Patient4, Patient8]
  {
    HighRiskPositions();
    FilterIsPicked(Patients, IsHighRisk, [1, 3, 7], [Patient2, Patient4, Patient8]);
  }

  lemma HighRiskPositions()
    ensures HoldsExactlyAt(Patients, IsHighRisk, [1, 3, 7])
    ensures ElementsAt(Patients, [1, 3, 7], [Patient2, Patient4, Patient8])
  {
  }

  /** The available seed doctors are 1, 3, 6, 7 and 8. */
  lemma SeedAvailableDoctors()
    ensures AvailableDoctors(Doctors) == [Doctor1, Doctor3, Doctor6, Doctor7, Doctor8]
  {
    AvailablePositions();
    FilterIsPicked(Doctors, IsAvailable, [0, 2, 5, 6, 7], [Doctor1, Doctor3, Doctor6, Doctor7, Doctor8]);
  }

  lemma AvailablePositions()
    ensures HoldsExactlyAt(Doctors, IsAvailable, [0, 2, 5, 6, 7])
    ensures ElementsAt(Doctors, [0, 2, 5, 6, 7], [Doctor1, Doctor3, Doctor6, Doctor7, Doctor8])
  {
  }

  predicate OnJanuary18(a: Appointment) { a.info.date == 20240118 }

  /** The seed appointments on 18 January 2024 are 1 to 5, in seed order. */
  lemma SeedAppointmentsOnJanuary18()
    ensures AppointmentsOn(Appointments, 20240118) == [Appointment1, Appointment2, Appointment3, Appointment4, Appointment5]
  {
    January18Positions();
    WithKeyIsPicked(Appointments, AppointmentDate, 20240118, OnJanuary18, [0, 1, 2, 3, 4],
      [Appointment1, Appointment2, Appointment3, Appointment4, Appointment5]);
  }

  lemma January18Positions()
    ensures HoldsExactlyAt(Appointments, OnJanuary18, [0, 1, 2, 3, 4])
    ensures ElementsAt(Appointments, [0, 1, 2, 3, 4], [Appointment1, Appointment2, Appointment3, Appointment4, Appointment5])
  {
  }

  predicate InThreadOne(m: Message) { m.info.threadId == "1" }

  /** Seed thread "1" holds messages 1 to 4. */
  lemma SeedThreadOne()
    ensures MessagesInThread(Messages, "1") == [Message1, Message2, Message3, Message4]
  {
    ThreadOnePositions();
    WithKeyIsPicked(Messages, MessageThread, "1", InThreadOne, [0, 1, 2, 3], [Message1, Message2, Message3, Message4]);
  }

  lemma ThreadOnePositions()
    ensures HoldsExactlyAt(Messages, InThreadOne, [0, 1, 2, 3])
    ensures ElementsAt(Messages, [0, 1, 2, 3], [Message1, Message2, Message3, Message4])
  {
    assert |Messages| == 10;
    forall i | 0 <= i < 10 ensures InThreadOne(Messages[i]) <==> i < 4 {
    }
  }

  /** Lookups by id on the seed: a known id finds its record, an unknown one nothing. */
  lemma SeedPatientById()
    ensures PatientById(Patients, "3") == Some(Patient3)
    ensures PatientById(Patients, "9") == None
  {
    FindAt(Patients, (p: Patient) => p.id == "3", 2);
  }

  lemma SeedDoctorById()
    ensures DoctorById(Doctors, "5") == Some(Doctor5)
    ensures DoctorById(Doctors, "") == None
  {
    FindAt(Doctors, (d: Doctor) => d.id == "5", 4);
  }
}
