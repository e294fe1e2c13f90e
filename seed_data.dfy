/** The catalogue the app starts with (the `dataCenters` array), as values. */
module SeedData {
  import opened DataCenterType

  /** dataCenters.ts:5 */
  const Record1 := DataCenter(
    "1", "TechVault NYC", "New York, NY", "New York", "USA", "Tier 3",
    Specifications("150,000 sq ft", "25 MW", "N+1 Redundant", 8, 2400, "15 kW/rack"),
    Capacity(78.0, 45, Available, "2024-01-15T10:30:00Z"),
    Connectivity(["Verizon", "AT&T", "Level 3", "Cogent", "NTT"], "100 Gbps"),
    ["Colocation", "Dedicated Servers", "Cloud Hosting", "Disaster Recovery", "Managed Services", "Network Security", "Load Balancing", "24/7 Support", "Remote Hands", "Smart Hands"],
    Sustainability(1.3, 85.0, true),
    Pricing("450", "299", "0.12", "2.50", "500"),
    Reviews(4.7, 156, 4.8, 4.6, 4.5),
    RealTimeData(22.5, 45.0, 18.2, 2.1, 99.98))

  /** dataCenters.ts:94 */
  const Record2 := DataCenter(
    "2", "CloudCore London", "London, UK", "London", "United Kingdom", "Tier 4",
    Specifications("200,000 sq ft", "40 MW", "2N Redundant", 12, 3200, "20 kW/rack"),
    Capacity(65.0, 78, Available, "2024-01-15T09:15:00Z"),
    Connectivity(["BT", "Virgin Media", "TalkTalk", "COLT", "Zayo"], "200 Gbps"),
    ["Colocation", "Private Cloud", "Hybrid Cloud", "DDoS Protection", "Data Backup", "Remote Hands", "Power Management", "Compliance Support", "Managed Security", "Network Monitoring"],
    Sustainability(1.25, 100.0, true),
    Pricing("520", "389", "0.15", "3.20", "750"),
    Reviews(4.9, 203, 4.9, 4.8, 4.7),
    RealTimeData(21.8, 42.0, 26.5, 1.8, 99.99))

  /** dataCenters.ts:183 */
  const Record3 := DataCenter(
    "3", "DataFlex Tokyo", "Tokyo, Japan", "Tokyo", "Japan", "Tier 3",
    Specifications("120,000 sq ft", "30 MW", "N+1 Redundant", 6, 1800, "12 kW/rack"),
    Capacity(82.0, 28, Limited, "2024-01-15T14:20:00Z"),
    Connectivity(["NTT", "KDDI", "SoftBank", "IIJ", "ARTERIA"], "150 Gbps"),
    ["Colocation", "Dedicated Servers", "CDN Services", "Gaming Infrastructure", "Streaming Services", "Mobile App Backend", "AI/ML Hosting", "IoT Platform", "Edge Computing", "Content Delivery"],
    Sustainability(1.35, 70.0, false),
    Pricing("420", "259", "0.10", "2.80", "400"),
    Reviews(4.6, 89, 4.7, 4.8, 4.4),
    RealTimeData(23.2, 48.0, 24.6, 3.2, 99.95))

  /** dataCenters.ts:272 */
  const Record4 := DataCenter(
    "4", "SecureVault Frankfurt", "Frankfurt, Germany", "Frankfurt", "Germany", "Tier 3",
    Specifications("180,000 sq ft", "35 MW", "N+1 Redundant", 10, 2800, "18 kW/rack"),
    Capacity(71.0, 52, Available, "2024-01-15T11:45:00Z"),
    Connectivity(["Deutsche Telekom", "Vodafone", "1&1", "Level 3", "Telia"], "180 Gbps"),
    ["Colocation", "Private Cloud", "Financial Services", "GDPR Compliance", "Data Analytics", "Blockchain Hosting", "High-Frequency Trading", "Disaster Recovery", "Managed Services", "Security Operations"],
    Sustainability(1.28, 95.0, true),
    Pricing("480", "329", "0.14", "3.50", "650"),
    Reviews(4.8, 167, 4.9, 4.7, 4.6),
    RealTimeData(22.1, 44.0, 25.2, 1.9, 99.97))

  /** dataCenters.ts:361 */
  const Record5 := DataCenter(
    "5", "PowerGrid Sydney", "Sydney, Australia", "Sydney", "Australia", "Tier 2",
    Specifications("90,000 sq ft", "20 MW", "N+1 Redundant", 4, 1200, "10 kW/rack"),
    Capacity(58.0, 68, Available, "2024-01-15T16:30:00Z"),
    Connectivity(["Telstra", "Optus", "Vocus", "TPG", "Aussie Broadband"], "100 Gbps"),
    ["Colocation", "Cloud Hosting", "Content Delivery", "Media Streaming", "E-commerce Hosting", "Mobile Backend", "Green Energy", "Local Support", "Backup Services", "Monitoring"],
    Sustainability(1.4, 90.0, true),
    Pricing("380", "229", "0.09", "2.20", "350"),
    Reviews(4.4, 72, 4.5, 4.6, 4.7),
    RealTimeData(24.1, 52.0, 11.6, 4.1, 99.92))

  /** dataCenters.ts:450 */
  const Record6 := DataCenter(
    "6", "NordicConnect Stockholm", "Stockholm, Sweden", "Stockholm", "Sweden", "Tier 3",
    Specifications("100,000 sq ft", "22 MW", "Free Cooling + N+1", 5, 1500, "14 kW/rack"),
    Capacity(62.0, 57, Available, "2024-01-15T18:00:00Z"),
    Connectivity(["Telia", "Tele2", "GlobalConnect", "Netnod", "IP-Only"], "120 Gbps"),
    ["Colocation", "Green Hosting", "Edge Computing", "IoT Solutions", "Managed Services", "Disaster Recovery", "Network Security", "24/7 Support"],
    Sustainability(1.15, 100.0, true),
    Pricing("400", "280", "0.11", "2.70", "450"),
    Reviews(4.7, 95, 4.8, 4.7, 4.6),
    RealTimeData(20.0, 40.0, 15.5, 2.5, 99.99))

  /** dataCenters.ts:537 */
  const Record7 := DataCenter(
    "7", "DesertCloud Dubai", "Dubai, UAE", "Dubai", "United Arab Emirates", "Tier 4",
    Specifications("130,000 sq ft", "30 MW", "2N Redundant + Adiabatic", 7, 2000, "16 kW/rack"),
    Capacity(70.0, 60, Available, "2024-01-15T19:30:00Z"),
    Connectivity(["Etisalat", "Du", "STC", "Omantel", "Mobily"], "150 Gbps"),
    ["Colocation", "Cloud Hosting", "Managed Services", "Disaster Recovery", "Cybersecurity", "AI/ML Infrastructure", "Blockchain Hosting", "Content Delivery"],
    Sustainability(1.3, 60.0, false),
    Pricing("550", "350", "0.18", "3.00", "800"),
    Reviews(4.8, 110, 4.9, 4.7, 4.6),
    RealTimeData(23.0, 35.0, 20.1, 3.0, 99.99))

  /** dataCenters.ts:624 */
  const Record8 := DataCenter(
    "8", "Amazon Web Services (AWS) - us-east-1", "North Virginia, USA", "Ashburn", "USA", "Tier 4",
    Specifications("Millions of sq ft", "Hundreds of MW", "Advanced Liquid Cooling", 0, 0, "Variable"),
    Capacity(90.0, 0, Limited, "2024-01-15T20:00:00Z"),
    Connectivity(["AWS Global Network"], "Tbps"),
    ["Compute (EC2)", "Storage (S3, EBS)", "Databases (RDS, DynamoDB)", "Networking (VPC, Route 53)", "Machine Learning", "Analytics", "Security", "Developer Tools"],
    Sustainability(1.1, 80.0, false),
    Pricing("N/A", "N/A", "0.03", "0.09", "0"),
    Reviews(4.9, 10000, 5.0, 4.5, 4.7),
    RealTimeData(21.0, 40.0, 100.0, 1.0, 99.999))

  /** dataCenters.ts:711 */
  const Record9 := DataCenter(
    "9", "Google Cloud Platform (GCP) - europe-west1", "Belgium", "St. Ghislain", "Belgium", "Tier 4",
    Specifications("Millions of sq ft", "Hundreds of MW", "Advanced Cooling Systems", 0, 0, "Variable"),
    Capacity(85.0, 0, Limited, "2024-01-15T20:15:00Z"),
    Connectivity(["Google Global Network"], "Tbps"),
    ["Compute Engine (VMs)", "Cloud Storage", "BigQuery", "Kubernetes Engine", "AI Platform", "Networking", "Security", "Operations"],
    Sustainability(1.1, 100.0, true),
    Pricing("N/A", "N/A", "0.04", "0.12", "0"),
    Reviews(4.8, 8000, 4.9, 4.6, 4.7),
    RealTimeData(21.5, 42.0, 90.0, 1.5, 99.999))

  /** dataCenters.ts:798 */
  const Record10 := DataCenter(
    "10", "Microsoft Azure - East US", "Virginia, USA", "Boydton", "USA", "Tier 4",
    Specifications("Millions of sq ft", "Hundreds of MW", "Advanced Cooling Technologies", 0, 0, "Variable"),
    Capacity(88.0, 0, Limited, "2024-01-15T20:30:00Z"),
    Connectivity(["Microsoft Global Network"], "Tbps"),
    ["Virtual Machines", "Storage (Blob, Files)", "SQL Database", "Azure Kubernetes Service", "AI + Machine Learning", "Networking", "Security", "DevOps"],
    Sustainability(1.12, 75.0, false),
    Pricing("N/A", "N/A", "0.035", "0.10", "0"),
    Reviews(4.7, 9000, 4.8, 4.6, 4.7),
    RealTimeData(22.0, 43.0, 95.0, 1.2, 99.999))

  const DataCenters: seq<DataCenter> := [Record1, Record2, Record3, Record4, Record5, Record6, Record7, Record8, Record9, Record10]
}
